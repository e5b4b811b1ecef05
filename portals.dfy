/**
 * Portal geometry of `src/state/real_view/level.rs`: the values a level is
 * made of, the collider arithmetic of planes and portals, the visibility test
 * of a portal's face, and the `Coord` transforms that carry a camera from
 * one portal's frame to another's.
 *
 * A portal's frame is (out_normal, up, up x out_normal); "right" is the
 * third axis. Over the reals these transforms are exact linear algebra.
 */
module Portals {
  import opened Vec
  import opened Wrappers
  import opened Physics
  import opened Cameras

  /** Where a portal stands: its world, centre, outward normal, up axis and width. */
  datatype PortalPos = PortalPos(world: nat, pos: V3, outNormal: V3, up: V3, width: real)

  /** The arguments of `PlaneObject::new`; the vertices it derives are not modelled. */
  datatype PlaneObject = PlaneObject(center: V3, r: real, tex: (real, real), texDelta: real, up: V3, right: V3)

  /** A portal; `connecting` is the (world, index) of the portal it leads to. */
  datatype Portal = Portal(plane: PlaneObject, at: PortalPos, connecting: (nat, nat), scale: real)

  /** A camera in a portal's frame: eye coordinates and target coordinates. */
  datatype Coord = Coord(forward: real, up: real, right: real,
                         targetForward: real, targetUp: real, targetRight: real)

  const ZOffset: real := -15.0

  /** The third axis of a portal's frame. */
  function RightAxis(p: PortalPos): V3 { Cross(p.up, p.outNormal) }

  // ---------------------------------------------------------------- colliders

  /** `(1,1,1) - |normal|` scaled by `r`: the half-extents of a plane's box. */
  function FlatBox(normal: V3, r: real): (v: V3)
    ensures normal.x == 0.0 ==> v.x == r
    ensures normal.y == 0.0 ==> v.y == r
    ensures normal.z == 0.0 ==> v.z == r
    ensures AbsR(normal.x) == 1.0 ==> v.x == 0.0
    ensures AbsR(normal.y) == 1.0 ==> v.y == 0.0
    ensures AbsR(normal.z) == 1.0 ==> v.z == 0.0
  {
    Scale(Sub(V3(1.0, 1.0, 1.0), Abs(normal)), r)
  }

  /** `add_plane` gives walls no friction and floors and ceilings full friction. */
  function PlaneFriction(up: V3): (f: real)
    ensures f == 0.0 <==> up.z == 0.0
    ensures f == 0.0 || f == 1.0
  {
    if Dot(up, UnitZ) == 0.0 then 0.0 else 1.0
  }

  /**
   * `add_plane`: inserts a solid box collider for the plane and appends the
   * plane to `planes`.
   */
  function AddPlane(p: Physics, planes: seq<PlaneObject>, center: V3, r: real, tex: (real, real),
                    texDelta: real, up: V3, right: V3): (res: (Physics, seq<PlaneObject>))
    ensures |res.0.colliders| == |p.colliders| + 1 && res.0.colliders[..|p.colliders|] == p.colliders
    ensures var c := res.0.colliders[|p.colliders|];
      && c.halfExtents == FlatBox(up, r) && c.translation == center && !c.sensor
      && c.friction == Some(PlaneFriction(up))
    ensures res.0.body == p.body
    ensures res.1 == planes + [PlaneObject(center, r, tex, texDelta, up, right)]
  {
    var (p', _) := Insert(p, Collider(FlatBox(up, r), center, Some(PlaneFriction(up)), false));
    (p', planes + [PlaneObject(center, r, tex, texDelta, up, right)])
  }

  /**
   * The right axis a portal's plane is drawn with: x for a horizontal portal,
   * otherwise the horizontal axis that makes (right, normal, z) right-handed.
   */
  function PortalRight(n: V3): (right: V3)
    ensures right != Zero && right.z == 0.0 && Dot(right, n) == 0.0
    ensures !(n.x == 0.0 && n.y == 0.0) ==> right == Cross(n, UnitZ)
    ensures n.x == 0.0 && n.y == 0.0 ==> right == UnitX
  {
    if n.x == 0.0 && n.y == 0.0 then UnitX else V3(n.y, -n.x, 0.0)
  }

  /** Half-extents of a portal's sensor: the plane's box shrunk by 1/16. */
  function SensorBox(n: V3, r: real): (v: V3)
    ensures n.x == 0.0 ==> v.x == r - 0.0625
    ensures n.y == 0.0 ==> v.y == r - 0.0625
    ensures n.z == 0.0 ==> v.z == r - 0.0625
    ensures AbsR(n.x) == 1.0 ==> v.x == 0.0
    ensures AbsR(n.y) == 1.0 ==> v.y == 0.0
    ensures AbsR(n.z) == 1.0 ==> v.z == 0.0
  {
    FlatBox(n, r - 0.0625)
  }

  // ---------------------------------------------------------------- visibility

  /** A projected vertex lies in the depth range [0, 1] after the divide by w. */
  predicate InDepthRange(v: V4) {
    v.w != 0.0 && 0.0 <= v.z / v.w <= 1.0
  }

  /** Some vertex of the face projects into the depth range. */
  predicate SeesFace(view: M4, vertices: seq<V3>) {
    exists k :: 0 <= k < |vertices| && InDepthRange(Apply(view, Point(vertices[k])))
  }

  /**
   * `will_see_face`: projects every vertex of the portal's plane and reports
   * whether one of them lands in the depth range. A zero `w` yields an
   * infinite or undefined depth, which fails the range test.
   */
  method WillSeeFace(view: M4, vertices: seq<V3>) returns (front: bool)
    ensures front <==> SeesFace(view, vertices)
  {
    front := false;
    var i := 0;
    while i < |vertices|
      invariant 0 <= i <= |vertices|
      invariant front <==> exists k :: 0 <= k < i && InDepthRange(Apply(view, Point(vertices[k])))
    {
      var result := Apply(view, Point(vertices[i]));
      if result.w != 0.0 && 0.0 <= result.z / result.w && result.z / result.w <= 1.0 {
        front := true;
      }
      i := i + 1;
    }
  }

  // ---------------------------------------------------------------- Coord transforms

  /**
   * `Coord::from_camera_portal`: the eye's offset from the portal, scaled by
   * the portal's scale, and the target direction, both in the portal's frame.
   */
  function FromCameraPortal(camera: Camera, portal: Portal): (c: Coord)
    ensures c == ScaleEye(CoordsOf(camera, portal.at), portal.scale)
  {
    var dis := Scale(Sub(camera.eye, portal.at.pos), portal.scale);
    DotScale(portal.at.outNormal, Sub(camera.eye, portal.at.pos), portal.scale);
    DotScale(portal.at.up, Sub(camera.eye, portal.at.pos), portal.scale);
    DotScale(RightAxis(portal.at), Sub(camera.eye, portal.at.pos), portal.scale);
    Coord(Dot(portal.at.outNormal, dis), Dot(portal.at.up, dis), Dot(Cross(portal.at.up, portal.at.outNormal), dis),
          Dot(portal.at.outNormal, camera.target), Dot(portal.at.up, camera.target),
          Dot(Cross(portal.at.up, portal.at.outNormal), camera.target))
  }

  /** The camera in p's frame, unscaled: eye offset and target as (forward, up, right) dot products. */
  function CoordsOf(camera: Camera, p: PortalPos): Coord {
    var d := Sub(camera.eye, p.pos);
    Coord(Dot(p.outNormal, d), Dot(p.up, d), Dot(RightAxis(p), d),
          Dot(p.outNormal, camera.target), Dot(p.up, camera.target), Dot(RightAxis(p), camera.target))
  }

  /** Scales the eye coordinates of a `Coord`, leaving the target ones. */
  function ScaleEye(c: Coord, k: real): Coord {
    c.(forward := k * c.forward, up := k * c.up, right := k * c.right)
  }

  lemma DotScale(v: V3, d: V3, k: real)
    ensures Dot(v, Scale(d, k)) == k * Dot(v, d)
  {
  }

  /** `f32::signum` over the reals: 1 for zero and positive numbers, -1 for negative ones. */
  function Signum(r: real): real { if r < 0.0 then -1.0 else 1.0 }

  /**
   * The right coordinate a portal view uses: inside the portal's width it is
   * scaled; beyond the edge only the part up to the edge is scaled and the
   * overhang is kept as it is.
   */
  function ViewRight(r: real, width: real, scale: real): real {
    if AbsR(r) >= width then Signum(r) * (width * scale + (AbsR(r) - width)) else r * scale
  }

  /**
   * `Coord::from_camera_portal_for_view`: like `from_camera_portal`, but the
   * forward distance is unscaled, the up distance is scaled afterwards and
   * the right distance goes through `ViewRight`.
   */
  function FromCameraPortalForView(camera: Camera, portal: Portal): (c: Coord)
    ensures var k := CoordsOf(camera, portal.at);
      && c.forward == k.forward && c.up == k.up * portal.scale
      && c.right == ViewRight(k.right, portal.at.width, portal.scale)
      && c.targetForward == k.targetForward && c.targetUp == k.targetUp && c.targetRight == k.targetRight
  {
    var dis := Sub(camera.eye, portal.at.pos);
    var right := Dot(Cross(portal.at.up, portal.at.outNormal), dis);
    var right' := if AbsR(right) >= portal.at.width then
        var delta := AbsR(right) - portal.at.width;
        Signum(right) * (portal.at.width * portal.scale + delta)
      else right * portal.scale;
    Coord(Dot(portal.at.outNormal, dis), Dot(portal.at.up, dis) * portal.scale, right',
          Dot(portal.at.outNormal, camera.target), Dot(portal.at.up, camera.target),
          Dot(Cross(portal.at.up, portal.at.outNormal), camera.target))
  }

  /** The target a coordinate rebuilds at a portal (shared by both camera changes). */
  function TargetAt(c: Coord, portal: PortalPos): V3 {
    Add(Sub(Scale(portal.up, c.targetUp), Scale(portal.outNormal, c.targetForward)),
        Scale(Cross(portal.up, Neg(portal.outNormal)), c.targetRight))
  }

  /**
   * `Coord::change_camera_without_forward`: rebuilds the eye at `portal` from
   * the up and right coordinates only (the right one mirrored), so the eye
   * lands in the portal's plane; the target is rebuilt in full.
   */
  function ChangeCameraWithoutForward(c: Coord, camera: Camera, portal: PortalPos): (moved: Camera)
    ensures moved.aspect == camera.aspect && moved.fovy == camera.fovy
    ensures moved.zNear == camera.zNear && moved.zFar == camera.zFar
    ensures moved.target == TargetAt(c, portal)
  {
    camera.(eye := Add(Sub(Scale(portal.up, c.up), Scale(RightAxis(portal), c.right)), portal.pos),
            target := TargetAt(c, portal))
  }

  /**
   * `Coord::change_camera_for_portal`: rebuilds the eye at `portal` with the
   * forward and right coordinates mirrored, so that looking into one portal
   * becomes looking out of the other.
   */
  function ChangeCameraForPortal(c: Coord, camera: Camera, portal: PortalPos): (moved: Camera)
    ensures moved.aspect == camera.aspect && moved.fovy == camera.fovy
    ensures moved.zNear == camera.zNear && moved.zFar == camera.zFar
    ensures moved.target == TargetAt(c, portal)
  {
    camera.(eye := Add(Sub(Sub(Scale(portal.up, c.up), Scale(portal.outNormal, c.forward)),
                           Scale(RightAxis(portal), c.right)), portal.pos),
            target := TargetAt(c, portal))
  }

  // ---------------------------------------------------------------- laws

  /**
   * The two camera changes set the same target, and their eyes differ by
   * exactly the forward term along the portal's normal.
   */
  lemma WithoutForwardDiffers(c: Coord, camera: Camera, portal: PortalPos)
    ensures ChangeCameraForPortal(c, camera, portal).target == ChangeCameraWithoutForward(c, camera, portal).target
    ensures ChangeCameraForPortal(c, camera, portal).eye
         == Add(ChangeCameraWithoutForward(c, camera, portal).eye, Scale(portal.outNormal, -c.forward))
  {
  }

  /** For an orthonormal frame the eye rebuilt without the forward term lies in the portal's plane. */
  lemma WithoutForwardInPlane(c: Coord, camera: Camera, p: PortalPos)
    requires Orthonormal(p.outNormal, p.up)
    ensures Dot(p.outNormal, Sub(ChangeCameraWithoutForward(c, camera, p).eye, p.pos)) == 0.0
  {
    var d := Sub(ChangeCameraWithoutForward(c, camera, p).eye, p.pos);
    assert d == InFrame(p, c.up, 0.0, c.right);
    InFrameCoords(p, c.up, 0.0, c.right);
  }

  /** The right map of a portal view is continuous at the portal's edge. */
  lemma ViewRightContinuous(r: real, width: real, scale: real)
    requires AbsR(r) == width
    ensures ViewRight(r, width, scale) == r * scale
  {
    if r < 0.0 {
      assert ViewRight(r, width, scale) == -(width * scale) == (-width) * scale;
    }
  }

  /** With scale 1 the right map of a portal view is the identity. */
  lemma ViewRightUnscaled(r: real, width: real)
    ensures ViewRight(r, width, 1.0) == r
  {
  }

  /**
   * Beyond the portal's edge the overhang is kept: the distance past the
   * scaled edge equals the distance past the real one, on the same side.
   */
  lemma ViewRightOverhang(r: real, width: real, scale: real)
    requires 0.0 <= width && 0.0 < scale && AbsR(r) >= width
    ensures AbsR(ViewRight(r, width, scale)) - width * scale == AbsR(r) - width
    ensures (r < 0.0) == (ViewRight(r, width, scale) < 0.0)
  {
    assert 0.0 <= width * scale;
  }

  /** A vector given by its coordinates in an orthonormal frame, as the camera changes build it. */
  function InFrame(p: PortalPos, a: real, b: real, c: real): V3 {
    Sub(Sub(Scale(p.up, a), Scale(p.outNormal, b)), Scale(RightAxis(p), c))
  }

  /** Reading back the coordinates of `InFrame` in the same frame. */
  lemma InFrameCoords(p: PortalPos, a: real, b: real, c: real)
    requires Orthonormal(p.outNormal, p.up)
    ensures var v := InFrame(p, a, b, c);
      Dot(p.outNormal, v) == -b && Dot(p.up, v) == a && Dot(RightAxis(p), v) == -c
  {
    var n, up, w := p.outNormal, p.up, RightAxis(p);
    FrameAxes(n, up);
    var v := InFrame(p, a, b, c);
    assert v == Add(Add(Scale(up, a), Scale(n, -b)), Scale(w, -c));
    DotCombination(n, up, n, w, a, -b, -c);
    DotCombination(up, up, n, w, a, -b, -c);
    DotCombination(w, up, n, w, a, -b, -c);
    assert Dot(n, up) == Dot(up, n) && Dot(w, n) == Dot(n, w) && Dot(w, up) == Dot(up, w);
  }

  /** The target rebuilt at a portal is the `InFrame` vector of the target coordinates. */
  lemma TargetInFrame(c: Coord, p: PortalPos)
    ensures TargetAt(c, p) == InFrame(p, c.targetUp, c.targetForward, c.targetRight)
  {
    assert Cross(p.up, Neg(p.outNormal)) == Neg(RightAxis(p));
  }

  /** Forward and right mirrored: looking into a portal becomes looking out of its partner. */
  function Mirror(c: Coord): Coord {
    Coord(-c.forward, c.up, -c.right, -c.targetForward, c.targetUp, -c.targetRight)
  }

  /**
   * After `change_camera_for_portal` at `p`, the camera's coordinates in
   * p's frame are the given ones with forward and right mirrored.
   */
  lemma CoordsAfterChange(c: Coord, camera: Camera, p: PortalPos)
    requires Orthonormal(p.outNormal, p.up)
    ensures CoordsOf(ChangeCameraForPortal(c, camera, p), p) == Mirror(c)
  {
    var m := ChangeCameraForPortal(c, camera, p);
    assert Sub(m.eye, p.pos) == InFrame(p, c.up, c.forward, c.right);
    InFrameCoords(p, c.up, c.forward, c.right);
    TargetInFrame(c, p);
    InFrameCoords(p, c.targetUp, c.targetForward, c.targetRight);
  }

  /** Rebuilding a vector from its three frame coordinates, two of them mirrored. */
  lemma Rebuild(p: PortalPos, d: V3)
    requires Orthonormal(p.outNormal, p.up)
    ensures InFrame(p, Dot(p.up, d), -Dot(p.outNormal, d), -Dot(RightAxis(p), d)) == d
  {
    var n, up, w := p.outNormal, p.up, RightAxis(p);
    Decompose(n, up, d);
    assert InFrame(p, Dot(up, d), -Dot(n, d), -Dot(w, d))
        == Add(Add(Scale(up, Dot(up, d)), Scale(n, Dot(n, d))), Scale(w, Dot(w, d)));
  }

  /** Changing a camera at `p` with its own mirrored coordinates there puts it back where it was. */
  lemma ChangeWithOwnCoords(camera: Camera, other: Camera, p: PortalPos)
    requires Orthonormal(p.outNormal, p.up)
    requires other.aspect == camera.aspect && other.fovy == camera.fovy
    requires other.zNear == camera.zNear && other.zFar == camera.zFar
    ensures ChangeCameraForPortal(Mirror(CoordsOf(camera, p)), other, p) == camera
  {
    var k := Mirror(CoordsOf(camera, p));
    var d := Sub(camera.eye, p.pos);
    Rebuild(p, d);
    assert InFrame(p, k.up, k.forward, k.right) == d;
    TargetInFrame(k, p);
    Rebuild(p, camera.target);
  }

  /** Mirroring commutes with scaling, and a reciprocal scale undoes a scale. */
  lemma UnscaleMirror(c: Coord, s: real, t: real)
    requires t * s == 1.0
    ensures ScaleEye(Mirror(ScaleEye(c, s)), t) == Mirror(c)
  {
    assert t * (s * c.forward) == (t * s) * c.forward;
    assert t * (s * c.up) == (t * s) * c.up;
    assert t * (s * c.right) == (t * s) * c.right;
  }

  /**
   * Crossing a portal and crossing straight back through its partner, whose
   * scale is the reciprocal, restores the camera: eye, target and lens.
   */
  lemma RoundTrip(camera: Camera, a: Portal, b: Portal)
    requires Orthonormal(a.at.outNormal, a.at.up) && Orthonormal(b.at.outNormal, b.at.up)
    requires a.scale != 0.0 && b.scale == 1.0 / a.scale
    ensures var there := ChangeCameraForPortal(FromCameraPortal(camera, a), camera, b.at);
      ChangeCameraForPortal(FromCameraPortal(there, b), there, a.at) == camera
  {
    var k := CoordsOf(camera, a.at);
    var there := ChangeCameraForPortal(ScaleEye(k, a.scale), camera, b.at);
    CoordsAfterChange(ScaleEye(k, a.scale), camera, b.at);
    assert FromCameraPortal(there, b) == ScaleEye(Mirror(ScaleEye(k, a.scale)), b.scale);
    UnscaleMirror(k, a.scale, b.scale);
    ChangeWithOwnCoords(camera, there, a.at);
  }
}

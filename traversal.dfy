/**
 * The recursive portal traversal of `MagicLevel::render` and
 * `MagicLevel::render_in_portal` (`src/state/real_view/level.rs`) as the
 * trace of render passes it records. Each pass carries the view-projection
 * matrix the camera uniform held when it was recorded; the pass at depth d
 * draws into view d of the pool, and a composite at depth d samples view d + 1.
 */
module Traversal {
  import opened Vec
  import opened Cameras
  import opened Portals
  import opened Levels

  /** A render pass, as the traversal records it. */
  datatype Pass =
    | PortalDepth(world: nat, idx: nat, depth: nat, view: M4)          // the entry portal's depth pre-pass
    | PortalScene(world: nat, depth: nat, view: M4)                    // the world's planes seen through it
    | PortalComposite(world: nat, idx: nat, depth: nat, view: M4)      // a nested portal drawn from view depth + 1
    | MainScene(world: nat, view: M4)                                  // the player's world on screen
    | ScreenComposite(world: nat, idx: nat, view: M4)                  // a portal drawn on screen from view 0

  /** How a camera is moved through a portal to the linked portal's frame. */
  type CameraMap = (Camera, Portal, PortalPos) -> Camera

  /**
   * What the traversal reads: the worlds, the size of the view pool, the
   * projection the uniform is built with, the vertices of a plane (computed
   * by the plane renderer) and the camera map of a view through a portal.
   */
  datatype Scene = Scene(levels: seq<Level>, nViews: nat, build: Camera -> M4,
                         vertices: PlaneObject -> seq<V3>, look: CameraMap)

  /** The camera map `render` and `render_in_portal` use: the view coordinates rebuilt, mirrored, at the linked portal. */
  function ViewCamera(camera: Camera, portal: Portal, conn: PortalPos): Camera {
    ChangeCameraForPortal(FromCameraPortalForView(camera, portal), camera, conn)
  }

  /** The camera looking out of the portal linked to `key`. */
  function Through(s: Scene, camera: Camera, key: (nat, nat)): Camera
    requires Linked(s.levels) && IsPortal(s.levels, key)
  {
    var k := Partner(s.levels, key);
    s.look(camera, s.levels[key.0].portals[key.1], s.levels[k.0].portals[k.1].at)
  }

  /**
   * The tests `render_in_portal` skips a portal on: it is the entry portal,
   * it is more than 5 above or below the eye, its face is not in view, or it
   * lies on the other side of the eye from the entry portal.
   */
  predicate Skipped(s: Scene, entry: (nat, nat), camera: Camera, key: (nat, nat))
    requires IsPortal(s.levels, entry) && IsPortal(s.levels, key)
  {
    var portal := s.levels[key.0].portals[key.1];
    var pos := portal.at.pos;
    || key == entry
    || AbsR(pos.z - camera.eye.z) > 5.0
    || !SeesFace(s.build(camera), s.vertices(portal.plane))
    || Dot(Sub(pos, camera.eye), Sub(pos, s.levels[entry.0].portals[entry.1].at.pos)) < 0.0
  }

  /**
   * The passes of `render_in_portal(key, dep, camera)`: the entry portal's
   * depth pass and the world's scene into view `dep`, then, unless view
   * `dep + 1` would be past the pool, the scan over every portal.
   */
  function InPortal(s: Scene, key: (nat, nat), dep: nat, camera: Camera): seq<Pass>
    requires Linked(s.levels) && IsPortal(s.levels, key) && dep < s.nViews
    decreases s.nViews - dep, 1, 0, 0
  {
    var v := s.build(camera);
    [PortalDepth(key.0, key.1, dep, v), PortalScene(key.0, dep, v)]
      + (if dep + 1 >= s.nViews then [] else Scan(s, key, dep, camera, 0, 0))
  }

  /**
   * The scan of `render_in_portal` from portal `i` of world `w` on: each
   * portal not skipped is recursed into through its link at depth `dep + 1`
   * and then composited into view `dep` with the parent's uniform restored.
   */
  function Scan(s: Scene, entry: (nat, nat), dep: nat, camera: Camera, w: nat, i: nat): seq<Pass>
    requires Linked(s.levels) && IsPortal(s.levels, entry) && dep + 1 < s.nViews
    requires w <= |s.levels| && (w < |s.levels| ==> i <= |s.levels[w].portals|)
    decreases s.nViews - dep, 0, |s.levels| - w, if w < |s.levels| then |s.levels[w].portals| - i else 0
  {
    if w == |s.levels| then []
    else if i == |s.levels[w].portals| then Scan(s, entry, dep, camera, w + 1, 0)
    else if Skipped(s, entry, camera, (w, i)) then Scan(s, entry, dep, camera, w, i + 1)
    else InPortal(s, Partner(s.levels, (w, i)), dep + 1, Through(s, camera, (w, i)))
         + [PortalComposite(w, i, dep, s.build(camera))]
         + Scan(s, entry, dep, camera, w, i + 1)
  }

  /** What the portal at `(w, i)` contributes to a scan: its recursion and composite, unless skipped. */
  function Visit(s: Scene, entry: (nat, nat), dep: nat, camera: Camera, w: nat, i: nat): seq<Pass>
    requires Linked(s.levels) && IsPortal(s.levels, entry) && dep + 1 < s.nViews
    requires w < |s.levels| && i < |s.levels[w].portals|
  {
    if Skipped(s, entry, camera, (w, i)) then []
    else InPortal(s, Partner(s.levels, (w, i)), dep + 1, Through(s, camera, (w, i)))
         + [PortalComposite(w, i, dep, s.build(camera))]
  }

  /** One step of `Scan`. */
  lemma ScanStep(s: Scene, entry: (nat, nat), dep: nat, camera: Camera, w: nat, i: nat)
    requires Linked(s.levels) && IsPortal(s.levels, entry) && dep + 1 < s.nViews
    requires w < |s.levels| && i < |s.levels[w].portals|
    ensures Scan(s, entry, dep, camera, w, i) == Visit(s, entry, dep, camera, w, i) + Scan(s, entry, dep, camera, w, i + 1)
  {
  }

  /**
   * The scan of `render` from portal `i` of world `w` on. `cur` is the
   * uniform's matrix when the visibility test runs: the caller's until the
   * first recursion, the camera's own after it.
   */
  function TopScan(s: Scene, camera: Camera, cur: M4, w: nat, i: nat): seq<Pass>
    requires Linked(s.levels) && 0 < s.nViews
    requires w <= |s.levels| && (w < |s.levels| ==> i <= |s.levels[w].portals|)
    decreases |s.levels| - w, if w < |s.levels| then |s.levels[w].portals| - i else 0
  {
    if w == |s.levels| then []
    else if i == |s.levels[w].portals| then TopScan(s, camera, cur, w + 1, 0)
    else
      var portal := s.levels[w].portals[i];
      if !SeesFace(cur, s.vertices(portal.plane)) || AbsR(portal.at.pos.z - camera.eye.z) > 5.0 then
        TopScan(s, camera, cur, w, i + 1)
      else
        InPortal(s, Partner(s.levels, (w, i)), 0, Through(s, camera, (w, i)))
        + [ScreenComposite(w, i, s.build(camera))]
        + TopScan(s, camera, s.build(camera), w, i + 1)
  }

  /** `render` skips the portal at `(w, i)`: its face is not seen from `cur`, or it is more than 5 units above or below the eye. */
  predicate Hidden(s: Scene, camera: Camera, cur: M4, w: nat, i: nat)
    requires w < |s.levels| && i < |s.levels[w].portals|
  {
    var portal := s.levels[w].portals[i];
    !SeesFace(cur, s.vertices(portal.plane)) || AbsR(portal.at.pos.z - camera.eye.z) > 5.0
  }

  /** What a portal `render` does not skip contributes: its recursion from depth 0 and its composite onto the screen. */
  function OnScreen(s: Scene, camera: Camera, w: nat, i: nat): seq<Pass>
    requires Linked(s.levels) && 0 < s.nViews
    requires w < |s.levels| && i < |s.levels[w].portals|
  {
    InPortal(s, Partner(s.levels, (w, i)), 0, Through(s, camera, (w, i))) + [ScreenComposite(w, i, s.build(camera))]
  }

  /** One step of `TopScan`: the portal at `(w, i)` contributes its recursion and composite when it passes both tests. */
  lemma TopScanStep(s: Scene, camera: Camera, cur: M4, w: nat, i: nat)
    requires Linked(s.levels) && 0 < s.nViews
    requires w < |s.levels| && i < |s.levels[w].portals|
    ensures TopScan(s, camera, cur, w, i)
      == if Hidden(s, camera, cur, w, i) then TopScan(s, camera, cur, w, i + 1)
         else OnScreen(s, camera, w, i) + TopScan(s, camera, s.build(camera), w, i + 1)
  {
  }

  /** The passes of `render`: the player's world on screen, then every visible portal from depth 0. */
  function RenderTrace(s: Scene, meWorld: nat, camera: Camera, cur: M4): seq<Pass>
    requires Linked(s.levels) && 0 < s.nViews
  {
    [MainScene(meWorld, cur)] + TopScan(s, camera, cur, 0, 0)
  }

  // ---------------------------------------------------------------- depth bounds

  /** A pass drawn into a view of the pool, at a depth in [lo, n), whose composite reads a view below n. */
  predicate InPool(p: Pass, lo: nat, n: nat) {
    && (p.PortalDepth? || p.PortalScene? || p.PortalComposite?)
    && lo <= p.depth < n
    && (p.PortalComposite? ==> p.depth + 1 < n)
  }

  /** Every pass of `t` is `InPool`. */
  predicate AllInPool(t: seq<Pass>, lo: nat, n: nat) {
    forall k :: 0 <= k < |t| ==> InPool(t[k], lo, n)
  }

  lemma AllInPoolAppend(a: seq<Pass>, b: seq<Pass>, lo: nat, n: nat)
    requires AllInPool(a, lo, n) && AllInPool(b, lo, n)
    ensures AllInPool(a + b, lo, n)
  {
    forall k | 0 <= k < |a + b|
      ensures InPool((a + b)[k], lo, n)
    {
      if k >= |a| { assert (a + b)[k] == b[k - |a|]; }
    }
  }

  lemma AllInPoolLower(t: seq<Pass>, lo: nat, lo': nat, n: nat)
    requires AllInPool(t, lo, n) && lo' <= lo
    ensures AllInPool(t, lo', n)
  {
  }

  /**
   * `render_in_portal` at depth `dep` only draws into views `dep` to
   * `nViews - 1` and only composites from a view that exists: however the
   * portals are linked, even to themselves, the pool bounds the recursion.
   */
  lemma {:induction false} InPortalInPool(s: Scene, key: (nat, nat), dep: nat, camera: Camera)
    requires Linked(s.levels) && IsPortal(s.levels, key) && dep < s.nViews
    ensures AllInPool(InPortal(s, key, dep, camera), dep, s.nViews)
    decreases s.nViews - dep, 1, 0, 0
  {
    var v := s.build(camera);
    var head := [PortalDepth(key.0, key.1, dep, v), PortalScene(key.0, dep, v)];
    assert AllInPool(head, dep, s.nViews);
    if dep + 1 < s.nViews {
      ScanInPool(s, key, dep, camera, 0, 0);
      AllInPoolAppend(head, Scan(s, key, dep, camera, 0, 0), dep, s.nViews);
    } else {
      assert InPortal(s, key, dep, camera) == head + [];
    }
  }

  lemma {:induction false} ScanInPool(s: Scene, entry: (nat, nat), dep: nat, camera: Camera, w: nat, i: nat)
    requires Linked(s.levels) && IsPortal(s.levels, entry) && dep + 1 < s.nViews
    requires w <= |s.levels| && (w < |s.levels| ==> i <= |s.levels[w].portals|)
    ensures AllInPool(Scan(s, entry, dep, camera, w, i), dep, s.nViews)
    decreases s.nViews - dep, 0, |s.levels| - w, if w < |s.levels| then |s.levels[w].portals| - i else 0
  {
    if w == |s.levels| {
    } else if i == |s.levels[w].portals| {
      ScanInPool(s, entry, dep, camera, w + 1, 0);
    } else if Skipped(s, entry, camera, (w, i)) {
      ScanInPool(s, entry, dep, camera, w, i + 1);
    } else {
      var inner := InPortal(s, Partner(s.levels, (w, i)), dep + 1, Through(s, camera, (w, i)));
      InPortalInPool(s, Partner(s.levels, (w, i)), dep + 1, Through(s, camera, (w, i)));
      AllInPoolLower(inner, dep + 1, dep, s.nViews);
      ScanInPool(s, entry, dep, camera, w, i + 1);
      var mid := [PortalComposite(w, i, dep, s.build(camera))];
      assert AllInPool(mid, dep, s.nViews);
      AllInPoolAppend(inner, mid, dep, s.nViews);
      AllInPoolAppend(inner + mid, Scan(s, entry, dep, camera, w, i + 1), dep, s.nViews);
    }
  }

  /** A pass of `render`: on screen, or in the pool at a valid depth. */
  predicate RenderPass(p: Pass, n: nat) {
    p.MainScene? || p.ScreenComposite? || InPool(p, 0, n)
  }

  /** Every pass of `t` is a `RenderPass`. */
  predicate AllRender(t: seq<Pass>, n: nat) {
    forall k :: 0 <= k < |t| ==> RenderPass(t[k], n)
  }

  lemma AllRenderAppend(a: seq<Pass>, b: seq<Pass>, n: nat)
    requires AllRender(a, n) && AllRender(b, n)
    ensures AllRender(a + b, n)
  {
    forall k | 0 <= k < |a + b|
      ensures RenderPass((a + b)[k], n)
    {
      if k >= |a| { assert (a + b)[k] == b[k - |a|]; }
    }
  }

  lemma {:induction false} TopScanInPool(s: Scene, camera: Camera, cur: M4, w: nat, i: nat)
    requires Linked(s.levels) && 0 < s.nViews
    requires w <= |s.levels| && (w < |s.levels| ==> i <= |s.levels[w].portals|)
    ensures AllRender(TopScan(s, camera, cur, w, i), s.nViews)
    decreases |s.levels| - w, if w < |s.levels| then |s.levels[w].portals| - i else 0
  {
    if w == |s.levels| {
    } else if i == |s.levels[w].portals| {
      TopScanInPool(s, camera, cur, w + 1, 0);
    } else {
      var portal := s.levels[w].portals[i];
      if !SeesFace(cur, s.vertices(portal.plane)) || AbsR(portal.at.pos.z - camera.eye.z) > 5.0 {
        TopScanInPool(s, camera, cur, w, i + 1);
      } else {
        var inner := InPortal(s, Partner(s.levels, (w, i)), 0, Through(s, camera, (w, i)));
        InPortalInPool(s, Partner(s.levels, (w, i)), 0, Through(s, camera, (w, i)));
        assert AllRender(inner, s.nViews);
        var mid := [ScreenComposite(w, i, s.build(camera))];
        assert AllRender(mid, s.nViews);
        TopScanInPool(s, camera, s.build(camera), w, i + 1);
        AllRenderAppend(inner, mid, s.nViews);
        AllRenderAppend(inner + mid, TopScan(s, camera, s.build(camera), w, i + 1), s.nViews);
      }
    }
  }

  /**
   * Every pass `render` records is on screen or in a view of the pool, and
   * the first is the player's world drawn with the caller's uniform.
   */
  lemma RenderInPool(s: Scene, meWorld: nat, camera: Camera, cur: M4)
    requires Linked(s.levels) && 0 < s.nViews
    ensures RenderTrace(s, meWorld, camera, cur)[0] == MainScene(meWorld, cur)
    ensures AllRender(RenderTrace(s, meWorld, camera, cur), s.nViews)
  {
    TopScanInPool(s, camera, cur, 0, 0);
    AllRenderAppend([MainScene(meWorld, cur)], TopScan(s, camera, cur, 0, 0), s.nViews);
  }

  // ---------------------------------------------------------------- which portals are entered

  /** The portals a scan from `(w, i)` does not skip, in scan order. */
  function ScanKeys(s: Scene, entry: (nat, nat), camera: Camera, w: nat, i: nat): (r: seq<(nat, nat)>)
    requires IsPortal(s.levels, entry)
    requires w <= |s.levels| && (w < |s.levels| ==> i <= |s.levels[w].portals|)
    ensures forall k :: 0 <= k < |r| ==> IsPortal(s.levels, r[k]) && !Skipped(s, entry, camera, r[k])
    decreases |s.levels| - w, if w < |s.levels| then |s.levels[w].portals| - i else 0
  {
    if w == |s.levels| then []
    else if i == |s.levels[w].portals| then ScanKeys(s, entry, camera, w + 1, 0)
    else if Skipped(s, entry, camera, (w, i)) then ScanKeys(s, entry, camera, w, i + 1)
    else [(w, i)] + ScanKeys(s, entry, camera, w, i + 1)
  }

  /** The portals composited into view `dep`, in trace order. */
  function CompositesAt(t: seq<Pass>, dep: nat): seq<(nat, nat)> {
    if |t| == 0 then []
    else (if t[0].PortalComposite? && t[0].depth == dep then [(t[0].world, t[0].idx)] else [])
         + CompositesAt(t[1..], dep)
  }

  lemma {:induction false} CompositesAtAppend(a: seq<Pass>, b: seq<Pass>, dep: nat)
    ensures CompositesAt(a + b, dep) == CompositesAt(a, dep) + CompositesAt(b, dep)
    decreases |a|
  {
    if |a| > 0 {
      assert (a + b)[1..] == a[1..] + b;
      CompositesAtAppend(a[1..], b, dep);
    } else {
      assert a + b == b;
    }
  }

  lemma {:induction false} CompositesAtDeeper(t: seq<Pass>, lo: nat, n: nat, dep: nat)
    requires AllInPool(t, lo, n) && dep < lo
    ensures CompositesAt(t, dep) == []
    decreases |t|
  {
    if |t| > 0 {
      assert InPool(t[0], lo, n);
      CompositesAtDeeper(t[1..], lo, n, dep);
    }
  }

  /** A composite pass at depth `dep` of `t` is listed by `CompositesAt`. */
  lemma {:induction false} CompositeListed(t: seq<Pass>, dep: nat, k: nat)
    requires k < |t| && t[k].PortalComposite? && t[k].depth == dep
    ensures (t[k].world, t[k].idx) in CompositesAt(t, dep)
    decreases k
  {
    if k > 0 {
      assert t[1..][k - 1] == t[k];
      CompositeListed(t[1..], dep, k - 1);
    }
  }

  lemma {:induction false} ScanComposites(s: Scene, entry: (nat, nat), dep: nat, camera: Camera, w: nat, i: nat)
    requires Linked(s.levels) && IsPortal(s.levels, entry) && dep + 1 < s.nViews
    requires w <= |s.levels| && (w < |s.levels| ==> i <= |s.levels[w].portals|)
    ensures CompositesAt(Scan(s, entry, dep, camera, w, i), dep) == ScanKeys(s, entry, camera, w, i)
    decreases |s.levels| - w, if w < |s.levels| then |s.levels[w].portals| - i else 0
  {
    if w == |s.levels| {
    } else if i == |s.levels[w].portals| {
      ScanComposites(s, entry, dep, camera, w + 1, 0);
    } else if Skipped(s, entry, camera, (w, i)) {
      ScanComposites(s, entry, dep, camera, w, i + 1);
    } else {
      var inner := InPortal(s, Partner(s.levels, (w, i)), dep + 1, Through(s, camera, (w, i)));
      InPortalInPool(s, Partner(s.levels, (w, i)), dep + 1, Through(s, camera, (w, i)));
      CompositesAtDeeper(inner, dep + 1, s.nViews, dep);
      var mid := [PortalComposite(w, i, dep, s.build(camera))];
      var rest := Scan(s, entry, dep, camera, w, i + 1);
      ScanComposites(s, entry, dep, camera, w, i + 1);
      CompositesAtAppend(inner, mid, dep);
      CompositesAtAppend(inner + mid, rest, dep);
      assert CompositesAt(mid, dep) == [(w, i)] + CompositesAt(mid[1..], dep);
    }
  }

  /**
   * The portals `render_in_portal(key, dep, camera)` composites into its own
   * view are exactly those its scan does not skip, in scan order, and none
   * when view `dep + 1` is past the pool.
   */
  lemma InPortalComposites(s: Scene, key: (nat, nat), dep: nat, camera: Camera)
    requires Linked(s.levels) && IsPortal(s.levels, key) && dep < s.nViews
    ensures CompositesAt(InPortal(s, key, dep, camera), dep)
         == if dep + 1 < s.nViews then ScanKeys(s, key, camera, 0, 0) else []
  {
    var v := s.build(camera);
    var head := [PortalDepth(key.0, key.1, dep, v), PortalScene(key.0, dep, v)];
    assert CompositesAt(head, dep) == [] by {
      assert CompositesAt(head[1..], dep) == CompositesAt(head[1..][1..], dep);
    }
    if dep + 1 < s.nViews {
      ScanComposites(s, key, dep, camera, 0, 0);
      CompositesAtAppend(head, Scan(s, key, dep, camera, 0, 0), dep);
    } else {
      assert InPortal(s, key, dep, camera) == head;
    }
  }

  /** Every portal not skipped by a scan from `(w, i)` on is in its keys. */
  lemma {:induction false} ScanKeysComplete(s: Scene, entry: (nat, nat), camera: Camera, w: nat, i: nat, key: (nat, nat))
    requires IsPortal(s.levels, entry) && IsPortal(s.levels, key) && !Skipped(s, entry, camera, key)
    requires w <= |s.levels| && (w < |s.levels| ==> i <= |s.levels[w].portals|)
    requires w < key.0 || (w == key.0 && i <= key.1)
    ensures key in ScanKeys(s, entry, camera, w, i)
    decreases |s.levels| - w, if w < |s.levels| then |s.levels[w].portals| - i else 0
  {
    assert w < |s.levels|;
    var here := ScanKeys(s, entry, camera, w, i);
    if i == |s.levels[w].portals| {
      ScanKeysComplete(s, entry, camera, w + 1, 0, key);
      assert here == ScanKeys(s, entry, camera, w + 1, 0);
    } else if (w, i) == key {
      assert here == [key] + ScanKeys(s, entry, camera, w, i + 1);
    } else {
      var rest := ScanKeys(s, entry, camera, w, i + 1);
      ScanKeysComplete(s, entry, camera, w, i + 1, key);
      assert here == rest || here == [(w, i)] + rest;
    }
  }

  /**
   * The recursion never re-enters from its own entry portal, and a portal is
   * composited into view `dep` exactly when it passes all four tests.
   */
  lemma EnteredIffVisible(s: Scene, key: (nat, nat), dep: nat, camera: Camera, other: (nat, nat))
    requires Linked(s.levels) && IsPortal(s.levels, key) && dep + 1 < s.nViews && IsPortal(s.levels, other)
    ensures other in CompositesAt(InPortal(s, key, dep, camera), dep) <==> !Skipped(s, key, camera, other)
    ensures key !in CompositesAt(InPortal(s, key, dep, camera), dep)
  {
    InPortalComposites(s, key, dep, camera);
    if !Skipped(s, key, camera, other) {
      ScanKeysComplete(s, key, camera, 0, 0, other);
    }
  }

  /** No composite pass at depth `dep` of `render_in_portal(key, dep, …)` draws the entry portal itself. */
  lemma NeverFromEntry(s: Scene, key: (nat, nat), dep: nat, camera: Camera)
    requires Linked(s.levels) && IsPortal(s.levels, key) && dep < s.nViews
    ensures var t := InPortal(s, key, dep, camera);
      forall k :: 0 <= k < |t| && t[k].PortalComposite? && t[k].depth == dep ==> (t[k].world, t[k].idx) != key
  {
    var t := InPortal(s, key, dep, camera);
    InPortalComposites(s, key, dep, camera);
    forall k | 0 <= k < |t| && t[k].PortalComposite? && t[k].depth == dep
      ensures (t[k].world, t[k].idx) != key
    {
      CompositeListed(t, dep, k);
    }
  }
}

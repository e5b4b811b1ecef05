/**
 * Worlds and the portal arena of `src/state/real_view/level.rs`: a `Level`
 * holds its portals and its groups of static planes; `Level::add_portal`
 * appends a portal and its sensor collider; `Linked` is the invariant the
 * paired insertion of `MagicLevel::add_portal` maintains. Also the three
 * level builders of `level.rs` and the player object of `obj.rs`.
 */
module Levels {
  import opened Vec
  import opened Wrappers
  import opened Physics
  import opened Seqs
  import opened Portals

  /** A world: its portals and its plane groups (one group per texture). */
  datatype Level = Level(portals: seq<Portal>, objs: seq<seq<PlaneObject>>)

  /** The player's handles: its bounding box and its own collider. */
  datatype Object = Object(bodyBounding: nat, colliderHandle: nat)

  /** What `Level::add_portal` changes and returns. */
  datatype Added = Added(level: Level, p: Physics, handle: nat, idx: nat)

  /** The plane a portal is drawn with. */
  function PortalPlane(at: PortalPos, r: real, texDelta: real): PlaneObject {
    PlaneObject(at.pos, r, (0.0, 0.0), texDelta, at.outNormal, PortalRight(at.outNormal))
  }

  /** The sensor collider that reports the player touching a portal. */
  function PortalSensor(at: PortalPos, r: real): Collider {
    Collider(SensorBox(at.outNormal, r), at.pos, None, true)
  }

  /**
   * `Level::add_portal`: appends one unlinked portal (connecting (0, 0)) with
   * the given scale, inserts its sensor, and returns the sensor's handle and
   * the portal's index, which is the old number of portals.
   */
  function LevelAddPortal(level: Level, p: Physics, at: PortalPos, r: real, texDelta: real, scale: real): (a: Added)
    ensures a.idx == |level.portals| && a.handle == |p.colliders|
    ensures |a.level.portals| == |level.portals| + 1 && a.level.portals[..a.idx] == level.portals
    ensures a.level.portals[a.idx] == Portal(PortalPlane(at, r, texDelta), at, (0, 0), scale)
    ensures a.level.objs == level.objs
    ensures a.p.colliders == p.colliders + [PortalSensor(at, r)] && a.p.body == p.body
  {
    var right := if at.outNormal.x == 0.0 && at.outNormal.y == 0.0 then UnitX
                 else V3(at.outNormal.y, -at.outNormal.x, 0.0);
    var plane := PlaneObject(at.pos, r, (0.0, 0.0), texDelta, at.outNormal, right);
    var (p', handle) := Insert(p, Collider(FlatBox(at.outNormal, r - 0.0625), at.pos, None, true));
    var idx := |level.portals|;
    Added(level.(portals := level.portals + [Portal(plane, at, (0, 0), scale)]), p', handle, idx)
  }

  /** Portal `i` of world `w` and the portal it leads to point at each other, with reciprocal scales. */
  predicate LinkedAt(levels: seq<Level>, w: nat, i: nat)
    requires w < |levels| && i < |levels[w].portals|
  {
    var c := levels[w].portals[i].connecting;
    && c.0 < |levels| && c.1 < |levels[c.0].portals|
    && levels[c.0].portals[c.1].connecting == (w, i)
    && levels[c.0].portals[c.1].scale * levels[w].portals[i].scale == 1.0
  }

  /** Every portal is linked: its target exists and links back. */
  predicate Linked(levels: seq<Level>) {
    forall w: nat, i: nat | w < |levels| && i < |levels[w].portals| :: LinkedAt(levels, w, i)
  }

  /** `(w, i)` names a portal. */
  predicate IsPortal(levels: seq<Level>, key: (nat, nat)) {
    key.0 < |levels| && key.1 < |levels[key.0].portals|
  }

  /** The portal a linked portal leads to. */
  function Partner(levels: seq<Level>, key: (nat, nat)): (k: (nat, nat))
    requires Linked(levels) && IsPortal(levels, key)
    ensures IsPortal(levels, k) && levels[k.0].portals[k.1].connecting == key
  {
    assert LinkedAt(levels, key.0, key.1);
    levels[key.0].portals[key.1].connecting
  }

  /** Writes a portal's `connecting` field and nothing else. */
  function SetConnecting(levels: seq<Level>, w: nat, i: nat, c: (nat, nat)): (r: seq<Level>)
    requires w < |levels| && i < |levels[w].portals|
    ensures |r| == |levels|
    ensures forall v :: 0 <= v < |r| && v != w ==> r[v] == levels[v]
    ensures r[w].objs == levels[w].objs && |r[w].portals| == |levels[w].portals|
    ensures forall j :: 0 <= j < |r[w].portals| && j != i ==> r[w].portals[j] == levels[w].portals[j]
    ensures r[w].portals[i] == levels[w].portals[i].(connecting := c)
  {
    levels[w := levels[w].(portals := levels[w].portals[i := levels[w].portals[i].(connecting := c)])]
  }

  /** The solid collider `add_plane` inserts for a plane. */
  function PlaneCollider(o: PlaneObject): Collider {
    Collider(FlatBox(o.up, o.r), o.center, Some(PlaneFriction(o.up)), false)
  }

  /** The solid colliders of a list of planes, in order. */
  function PlaneColliders(specs: seq<PlaneObject>): seq<Collider> {
    seq(|specs|, k requires 0 <= k < |specs| => PlaneCollider(specs[k]))
  }

  /** `add_plane` once per plane, in order: each plane is kept and gets its solid collider. */
  function AddPlanes(p: Physics, planes: seq<PlaneObject>, specs: seq<PlaneObject>): (r: (Physics, seq<PlaneObject>))
    ensures r.1 == planes + specs
    ensures r.0.colliders == p.colliders + PlaneColliders(specs)
    ensures r.0.body == p.body
    decreases |specs|
  {
    if |specs| == 0 then (p, planes)
    else
      var o := specs[0];
      var (p1, planes1) := AddPlane(p, planes, o.center, o.r, o.tex, o.texDelta, o.up, o.right);
      var r := AddPlanes(p1, planes1, specs[1..]);
      assert PlaneColliders(specs) == [PlaneCollider(o)] + PlaneColliders(specs[1..]);
      r
  }

  /** A plane as `add_plane` receives it, with no texture offset. */
  function Plane(center: V3, r: real, texDelta: real, up: V3, right: V3): PlaneObject {
    PlaneObject(center, r, (0.0, 0.0), texDelta, up, right)
  }

  /** The solid colliders of a level's plane groups, group after group. */
  function GroupColliders(groups: seq<seq<PlaneObject>>): seq<Collider>
    decreases |groups|
  {
    if groups == [] then [] else GroupColliders(groups[..|groups| - 1]) + PlaneColliders(groups[|groups| - 1])
  }

  /** Each group built with `add_plane`, in order, from an empty plane list. */
  function BuildGroups(p: Physics, groups: seq<seq<PlaneObject>>): (r: (seq<seq<PlaneObject>>, Physics))
    ensures r.0 == groups
    ensures r.1.colliders == p.colliders + GroupColliders(groups) && r.1.body == p.body
    decreases |groups|
  {
    if groups == [] then ([], p)
    else
      var init, final := groups[..|groups| - 1], groups[|groups| - 1];
      var front := BuildGroups(p, init);
      var back := AddPlanes(front.1, [], final);
      assert [] + final == final && groups == init + [final];
      assert GroupColliders(groups) == GroupColliders(init) + PlaneColliders(final);
      Assoc(p.colliders, GroupColliders(init), PlaneColliders(final));
      (front.0 + [back.1], back.0)
  }

  /** The error a builder reports when a texture it needs is not loaded. */
  const NoTexture: string := "NO TEXTURE"

  /**
   * The shape shared by the level builders: fail with "NO TEXTURE" unless
   * every texture in `needed` is loaded, otherwise add the planes of every
   * group, each with its solid collider, as a portal-less level.
   */
  function TexturedLevel(p: Physics, textures: set<string>, needed: set<string>, groups: seq<seq<PlaneObject>>)
    : (r: Result<(Level, Physics), string>)
    ensures r.Ok? <==> needed <= textures
    ensures r.Err? ==> r.error == NoTexture
    ensures r.Ok? ==> r.value.0 == Level([], groups) && r.value.1.body == p.body
    ensures r.Ok? ==> r.value.1.colliders == p.colliders + GroupColliders(groups)
  {
    if needed <= textures then
      var (built, p') := BuildGroups(p, groups);
      Ok((Level([], built), p'))
    else Err(NoTexture)
  }

  /** `Level::normal_level`, `Level::long_tunnel` and `Level::fat_tunnel` each need "gf", "bf" and "pf". */
  const AllThree: set<string> := {"gf", "bf", "pf"}

  /** `Level::normal_level`: a ground plane and five blocks; the "pf" plane group is built but not kept. */
  const NormalGround: seq<PlaneObject> := [Plane(Zero, 10.0, 5.0, UnitZ, UnitX)]
  const NormalBlocks: seq<PlaneObject> := [
    Plane(V3(0.0, 1.0, 1.0), 1.0, 0.5, UnitY, UnitX),
    Plane(V3(0.0, -1.0, 1.0), 1.0, 0.5, Neg(UnitY), UnitX),
    Plane(V3(0.0, 0.0, 2.0), 1.0, 0.5, UnitZ, UnitX),
    Plane(V3(4.0, 2.0, 1.0), 1.0, 0.5, UnitY, UnitX),
    Plane(V3(4.0, 0.0, 1.0), 1.0, 0.5, Neg(UnitY), UnitX)]

  /** `Level::long_tunnel`: two floors down. */
  const LongGround: seq<PlaneObject> := [Plane(V3(0.0, 0.0, ZOffset * 2.0), 10.0, 25.0, UnitZ, UnitX)]
  const LongBlocks: seq<PlaneObject> := [
    Plane(V3(0.0, 1.0, 5.0 + ZOffset * 2.0), 5.0, 2.5, UnitY, UnitX),
    Plane(V3(0.0, -1.0, 5.0 + ZOffset * 2.0), 5.0, 2.5, UnitY, UnitX),
    Plane(V3(0.0, 0.0, 10.0 + ZOffset * 2.0), 5.0, 2.5, Neg(UnitZ), UnitX)]

  /** `Level::fat_tunnel`: one floor down. */
  const FatGround: seq<PlaneObject> := [Plane(V3(0.0, 0.0, ZOffset), 10.0, 25.0, UnitZ, UnitX)]
  const FatBlocks: seq<PlaneObject> := [
    Plane(V3(0.0, 5.0, 5.0 + ZOffset), 5.0, 2.5, UnitY, UnitX),
    Plane(V3(0.0, -5.0, 5.0 + ZOffset), 5.0, 2.5, UnitY, UnitX),
    Plane(V3(0.0, 0.0, 10.0 + ZOffset), 5.0, 2.5, Neg(UnitZ), UnitX)]

  /**
   * `Object::new` for the player: the bounding box (`BodyBounding`) is
   * inserted first, then the player's own collider `c`; the body is placed
   * at `start`.
   */
  function NewObject(p: Physics, c: Collider, start: V3): (r: (Physics, Object))
    ensures r.0.colliders == p.colliders + [Collider(BodyBounding, Zero, None, false), c]
    ensures r.1 == Object(|p.colliders|, |p.colliders| + 1) && r.0.body == start
  {
    var (p1, bb) := Insert(p.(body := start), Collider(BodyBounding, Zero, None, false));
    var (p2, ch) := Insert(p1, c);
    (p2, Object(bb, ch))
  }

  /** The player's own collider: a thin frictionless box. */
  const MeCollider: Collider := Collider(V3(0.01, 0.01, 1.0), Zero, Some(0.0), false)
}

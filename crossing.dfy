/**
 * The crossing protocol of `MagicLevel::update` (`src/state/real_view/level.rs`)
 * as functions of the tick's collision events: which events cross a portal,
 * what one crossing does to the camera, the current world, the player's
 * bounding box and body, and the fold over a whole tick.
 */
module Crossing {
  import opened Vec
  import opened Wrappers
  import opened Physics
  import opened Cameras
  import opened Portals
  import opened Levels

  /** A rapier collision event between two colliders. */
  datatype CollisionEvent = Started(c1: nat, c2: nat) | Stopped(c1: nat, c2: nat)

  /** What the crossing loop changes: camera, current world, physics, and the portals already crossed. */
  datatype Tick = Tick(camera: Camera, meWorld: nat, p: Physics, coled: set<(nat, nat)>)

  /** Every registered sensor handle names a portal. */
  predicate MapOk(levels: seq<Level>, portalsMap: map<nat, (nat, nat)>) {
    forall h | h in portalsMap :: IsPortal(levels, portalsMap[h])
  }

  /** Every portal records the world it is stored in. */
  predicate Placed(levels: seq<Level>) {
    forall w: nat, i: nat | w < |levels| && i < |levels[w].portals| :: levels[w].portals[i].at.world == w
  }

  /** The portal graph and the player's handles are usable by the crossing loop. */
  predicate Ready(levels: seq<Level>, portalsMap: map<nat, (nat, nat)>, me: Object, p: Physics) {
    Linked(levels) && Placed(levels) && MapOk(levels, portalsMap) && me.bodyBounding < |p.colliders|
  }

  /**
   * The portal an event reports the player touching: none for a stop event,
   * and none when the other collider is not a portal sensor.
   */
  function EventPortal(portalsMap: map<nat, (nat, nat)>, me: Object, e: CollisionEvent): Option<(nat, nat)> {
    if e.Stopped? then None
    else
      var h := if e.c1 == me.colliderHandle then e.c2 else e.c1;
      if h in portalsMap then Some(portalsMap[h]) else None
  }

  /** How a crossing moves the camera; the class passes `CrossedCamera`. */
  type CameraMap = (Camera, Portal, PortalPos) -> Camera

  /** The camera after going through `portal` to `conn`: rebuilt there without the forward term, on conn's height, nudged out. */
  function CrossedCamera(camera: Camera, portal: Portal, conn: PortalPos): Camera {
    var moved := ChangeCameraWithoutForward(FromCameraPortal(camera, portal), camera, conn);
    moved.(eye := Add(moved.eye.(z := conn.pos.z), Scale(conn.outNormal, 0.02)))
  }

  /**
   * Through a wall portal (horizontal normal, orthonormal frame) the
   * crossed eye ends 0.02 in front of the linked portal's plane.
   */
  lemma CrossedInFront(camera: Camera, portal: Portal, conn: PortalPos)
    requires Orthonormal(conn.outNormal, conn.up) && conn.outNormal.z == 0.0
    ensures Dot(conn.outNormal, Sub(CrossedCamera(camera, portal, conn).eye, conn.pos)) == 0.02
  {
    var moved := ChangeCameraWithoutForward(FromCameraPortal(camera, portal), camera, conn);
    WithoutForwardInPlane(FromCameraPortal(camera, portal), camera, conn);
    var n := conn.outNormal;
    var d := Sub(moved.eye, conn.pos);
    var e := Sub(CrossedCamera(camera, portal, conn).eye, conn.pos);
    assert e == Add(d.(z := 0.0), Scale(n, 0.02));
    assert Dot(n, e) == Dot(n, d) + 0.02 * Dot(n, n);
  }

  /**
   * One crossing through portal `key`: the camera moves to the linked
   * portal, the current world becomes the linked portal's world, the
   * bounding box's x and y half-extents are multiplied by the entered
   * portal's scale and the body follows the eye.
   */
  function Enter(levels: seq<Level>, cross: CameraMap, key: (nat, nat), st: Tick, bb: nat): (r: Tick)
    requires Linked(levels) && IsPortal(levels, key) && bb < |st.p.colliders|
    ensures |r.p.colliders| == |st.p.colliders|
  {
    var portal := levels[key.0].portals[key.1];
    var k := Partner(levels, key);
    var conn := levels[k.0].portals[k.1].at;
    var camera := cross(st.camera, portal, conn);
    var box := st.p.colliders[bb];
    Tick(camera, conn.world,
         st.p.(colliders := st.p.colliders[bb := box.(halfExtents := Rescale(box.halfExtents, portal.scale))],
               body := camera.eye),
         st.coled + {key})
  }

  /** Half-extents with x and y multiplied by `k`. */
  function Rescale(h: V3, k: real): V3 {
    V3(h.x * k, h.y * k, h.z)
  }

  /** Rescaling twice is rescaling once by the product. */
  lemma RescaleTwice(h: V3, a: real, b: real)
    ensures Rescale(Rescale(h, a), b) == Rescale(h, a * b)
  {
    assert h.x * a * b == h.x * (a * b);
    assert h.y * a * b == h.y * (a * b);
  }

  /** One event of the loop: skipped, ignored when its portal was already crossed this tick, or a crossing. */
  function Step(levels: seq<Level>, portalsMap: map<nat, (nat, nat)>, me: Object, cross: CameraMap, st: Tick, e: CollisionEvent): (r: Tick)
    requires Ready(levels, portalsMap, me, st.p)
    ensures Ready(levels, portalsMap, me, r.p)
  {
    match EventPortal(portalsMap, me, e)
    case None => st
    case Some(key) => if key in st.coled then st else Enter(levels, cross, key, st, me.bodyBounding)
  }

  /** The whole loop over a tick's events, in order. */
  function Drain(levels: seq<Level>, portalsMap: map<nat, (nat, nat)>, me: Object, cross: CameraMap, st: Tick, events: seq<CollisionEvent>): (r: Tick)
    requires Ready(levels, portalsMap, me, st.p)
    ensures Ready(levels, portalsMap, me, r.p)
    decreases |events|
  {
    if |events| == 0 then st
    else Drain(levels, portalsMap, me, cross, Step(levels, portalsMap, me, cross, st, events[0]), events[1..])
  }

  /** The portals a tick crosses, in order, starting from the already-crossed set `coled`. */
  function Crossings(portalsMap: map<nat, (nat, nat)>, me: Object, coled: set<(nat, nat)>, events: seq<CollisionEvent>): (cs: seq<(nat, nat)>)
    ensures forall k :: 0 <= k < |cs| ==> cs[k] in portalsMap.Values
    decreases |events|
  {
    if |events| == 0 then []
    else match EventPortal(portalsMap, me, events[0])
      case None => Crossings(portalsMap, me, coled, events[1..])
      case Some(key) =>
        if key in coled then Crossings(portalsMap, me, coled, events[1..])
        else [key] + Crossings(portalsMap, me, coled + {key}, events[1..])
  }

  /** A tick's events without the stop events. */
  function Starts(events: seq<CollisionEvent>): (r: seq<CollisionEvent>)
    ensures forall k :: 0 <= k < |r| ==> r[k].Started?
    ensures |r| <= |events|
  {
    if |events| == 0 then []
    else if events[0].Stopped? then Starts(events[1..])
    else [events[0]] + Starts(events[1..])
  }

  /** Stop events do nothing: the loop over all events equals the loop over the start events. */
  lemma {:induction false} StopsSkipped(levels: seq<Level>, portalsMap: map<nat, (nat, nat)>, me: Object, cross: CameraMap, st: Tick, events: seq<CollisionEvent>)
    requires Ready(levels, portalsMap, me, st.p)
    ensures Drain(levels, portalsMap, me, cross, st, events) == Drain(levels, portalsMap, me, cross, st, Starts(events))
    decreases |events|
  {
    if |events| > 0 {
      var st' := Step(levels, portalsMap, me, cross, st, events[0]);
      StopsSkipped(levels, portalsMap, me, cross, st', events[1..]);
      if events[0].Stopped? {
        StopsSkipped(levels, portalsMap, me, cross, st, events[1..]);
      } else {
        var s := Starts(events);
        assert s[0] == events[0] && s[1..] == Starts(events[1..]);
      }
    }
  }

  /** No key of `cs` is in `coled`. */
  predicate Fresh(cs: seq<(nat, nat)>, coled: set<(nat, nat)>) {
    forall k :: 0 <= k < |cs| ==> cs[k] !in coled
  }

  /** The keys of `cs` are pairwise distinct. */
  predicate Distinct(cs: seq<(nat, nat)>) {
    forall j, k :: 0 <= j < k < |cs| ==> cs[j] != cs[k]
  }

  /**
   * Each portal is crossed at most once per tick: the crossings are
   * pairwise distinct and none of them was crossed before.
   */
  lemma {:induction false} CrossedOnce(portalsMap: map<nat, (nat, nat)>, me: Object, coled: set<(nat, nat)>, events: seq<CollisionEvent>)
    ensures Fresh(Crossings(portalsMap, me, coled, events), coled)
    ensures Distinct(Crossings(portalsMap, me, coled, events))
    decreases |events|
  {
    if |events| > 0 {
      var rest := events[1..];
      match EventPortal(portalsMap, me, events[0])
      case None =>
        CrossedOnce(portalsMap, me, coled, rest);
        assert Crossings(portalsMap, me, coled, events) == Crossings(portalsMap, me, coled, rest);
      case Some(key) =>
        if key in coled {
          CrossedOnce(portalsMap, me, coled, rest);
          assert Crossings(portalsMap, me, coled, events) == Crossings(portalsMap, me, coled, rest);
        } else {
          CrossedOnce(portalsMap, me, coled + {key}, rest);
          var tail := Crossings(portalsMap, me, coled + {key}, rest);
          var cs := [key] + tail;
          assert Crossings(portalsMap, me, coled, events) == cs;
          assert forall k :: 1 <= k < |cs| ==> cs[k] == tail[k - 1];
          assert forall k :: 1 <= k < |cs| ==> cs[k] != key && cs[k] !in coled;
        }
    }
  }

  /** The set of crossed portals at the end of a tick is the starting set plus the crossings. */
  lemma {:induction false} ColedIsCrossings(levels: seq<Level>, portalsMap: map<nat, (nat, nat)>, me: Object, cross: CameraMap, st: Tick, events: seq<CollisionEvent>)
    requires Ready(levels, portalsMap, me, st.p)
    ensures Drain(levels, portalsMap, me, cross, st, events).coled
         == st.coled + set k | k in Crossings(portalsMap, me, st.coled, events)
    decreases |events|
  {
    if |events| > 0 {
      var st' := Step(levels, portalsMap, me, cross, st, events[0]);
      ColedIsCrossings(levels, portalsMap, me, cross, st', events[1..]);
      var rest := Crossings(portalsMap, me, st'.coled, events[1..]);
      match EventPortal(portalsMap, me, events[0])
      case None =>
      case Some(key) =>
        if key !in st.coled {
          assert Crossings(portalsMap, me, st.coled, events) == [key] + rest;
          assert (set k | k in [key] + rest) == {key} + set k | k in rest;
        }
    }
  }

  /** The scale of portal `key` (1 for a key that names no portal). */
  function ScaleOf(levels: seq<Level>, key: (nat, nat)): real {
    if IsPortal(levels, key) then levels[key.0].portals[key.1].scale else 1.0
  }

  /** The product of the scales of the given portals. */
  function ScaleProduct(levels: seq<Level>, keys: seq<(nat, nat)>): real {
    if |keys| == 0 then 1.0 else ScaleOf(levels, keys[0]) * ScaleProduct(levels, keys[1..])
  }

  /**
   * Over a tick the bounding box's x and y half-extents are multiplied by
   * the scales of the portals crossed, and its z half-extent is unchanged.
   */
  lemma {:induction false} BoxRescaled(levels: seq<Level>, portalsMap: map<nat, (nat, nat)>, me: Object, cross: CameraMap, st: Tick, events: seq<CollisionEvent>)
    requires Ready(levels, portalsMap, me, st.p)
    ensures Drain(levels, portalsMap, me, cross, st, events).p.colliders[me.bodyBounding].halfExtents
         == Rescale(st.p.colliders[me.bodyBounding].halfExtents, ScaleProduct(levels, Crossings(portalsMap, me, st.coled, events)))
    decreases |events|
  {
    var h0 := st.p.colliders[me.bodyBounding].halfExtents;
    if |events| == 0 {
      assert h0 == Rescale(h0, 1.0);
    } else {
      var st' := Step(levels, portalsMap, me, cross, st, events[0]);
      BoxRescaled(levels, portalsMap, me, cross, st', events[1..]);
      var rest := Crossings(portalsMap, me, st'.coled, events[1..]);
      match EventPortal(portalsMap, me, events[0])
      case None =>
      case Some(key) =>
        if key !in st.coled {
          var cs := [key] + rest;
          assert Crossings(portalsMap, me, st.coled, events) == cs;
          assert cs[1..] == rest;
          EnterBox(levels, cross, key, st, me.bodyBounding);
          RescaleTwice(h0, ScaleOf(levels, key), ScaleProduct(levels, rest));
        }
    }
  }

  /** A crossing rescales the bounding box by the entered portal's scale. */
  lemma EnterBox(levels: seq<Level>, cross: CameraMap, key: (nat, nat), st: Tick, bb: nat)
    requires Linked(levels) && IsPortal(levels, key) && bb < |st.p.colliders|
    ensures Enter(levels, cross, key, st, bb).p.colliders[bb].halfExtents == Rescale(st.p.colliders[bb].halfExtents, ScaleOf(levels, key))
  {
  }

  /**
   * After a tick the player is in the world of the portal linked to the last
   * crossing, or in the same world when nothing was crossed; the body is
   * where that crossing put the eye.
   */
  lemma {:induction false} EndsBehindLastCrossing(levels: seq<Level>, portalsMap: map<nat, (nat, nat)>, me: Object, cross: CameraMap, st: Tick, events: seq<CollisionEvent>)
    requires Ready(levels, portalsMap, me, st.p)
    ensures var cs := Crossings(portalsMap, me, st.coled, events);
      var r := Drain(levels, portalsMap, me, cross, st, events);
      && (|cs| == 0 ==> r.meWorld == st.meWorld && r.p.body == st.p.body && r.camera == st.camera)
      && (|cs| > 0 ==> r.meWorld == Partner(levels, cs[|cs| - 1]).0 && r.p.body == r.camera.eye)
    decreases |events|
  {
    if |events| > 0 {
      var st' := Step(levels, portalsMap, me, cross, st, events[0]);
      EndsBehindLastCrossing(levels, portalsMap, me, cross, st', events[1..]);
      match EventPortal(portalsMap, me, events[0])
      case None =>
      case Some(key) =>
        if key !in st.coled {
          var rest := Crossings(portalsMap, me, st'.coled, events[1..]);
          assert Crossings(portalsMap, me, st.coled, events) == [key] + rest;
          var k := Partner(levels, key);
          assert levels[k.0].portals[k.1].at.world == k.0;
        }
    }
  }
}

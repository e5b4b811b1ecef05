/**
 * The part of the rapier physics world the portal code touches: the collider
 * set, in which a handle is the position of the collider in insertion order,
 * and the translation of the player's rigid body. Stepping, contacts and the
 * other rigid bodies belong to the physics engine and are not modelled here.
 */
module Physics {
  import opened Vec
  import opened Wrappers

  /**
   * A cuboid collider as `ColliderBuilder::cuboid` builds it. `friction` is
   * `None` when the builder's default is kept; `sensor` marks the portal
   * trigger volumes, which report contacts instead of colliding.
   */
  datatype Collider = Collider(halfExtents: V3, translation: V3, friction: Option<real>, sensor: bool)

  datatype Physics = Physics(colliders: seq<Collider>, body: V3)

  /** The player's bounding box that `Object::new` attaches to its body. */
  const BodyBounding: V3 := V3(0.125, 0.125, 1.0)

  /** An empty world (`RapierData::new`), with the body at `start`. */
  function EmptyWorld(start: V3): (p: Physics)
    ensures |p.colliders| == 0 && p.body == start
  {
    Physics([], start)
  }

  /** `collider_set.insert`: the new collider gets the next handle and nothing else moves. */
  function Insert(p: Physics, c: Collider): (r: (Physics, nat))
    ensures r.1 == |p.colliders| && |r.0.colliders| == |p.colliders| + 1
    ensures r.0.colliders[r.1] == c && r.0.colliders[..r.1] == p.colliders
    ensures r.0.body == p.body
  {
    (p.(colliders := p.colliders + [c]), |p.colliders|)
  }
}

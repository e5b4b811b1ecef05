/**
 * `MagicLevel` (`src/state/real_view/level.rs`): the worlds, the physics
 * world, the player, the sensor-handle map and the pool of portal views,
 * with the paired portal insertion, the per-tick crossing loop, the portal
 * traversal of a frame and the three-world level of `MagicLevel::new`.
 */
module Magic {
  import opened Vec
  import opened Wrappers
  import opened Physics
  import opened Cameras
  import opened Portals
  import opened Levels
  import opened Crossing
  import opened Traversal
  import opened Seqs

  /** What `MagicLevel::add_portal` produces: the worlds and physics after it, and both sensor handles with their portals. */
  datatype Paired = Paired(levels: seq<Level>, p: Physics, h1: nat, k1: (nat, nat), h2: nat, k2: (nat, nat))

  /** How many of the two new portals go to world `v`. */
  function NewIn(v: nat, p1: PortalPos, p2: PortalPos): nat {
    (if v == p1.world then 1 else 0) + (if v == p2.world then 1 else 0)
  }

  /**
   * `MagicLevel::add_portal` on values: the first portal goes to world
   * `p1.world` with scale `scale`, the second to `p2.world` (after the first,
   * when both are the same world) with scale `1 / scale`, and each is
   * linked to the other.
   */
  function AddPair(levels: seq<Level>, p: Physics, p1: PortalPos, p2: PortalPos,
                   r1: real, td1: real, r2: real, td2: real, scale: real): (r: Paired)
    requires p1.world < |levels| && p2.world < |levels| && scale != 0.0
    ensures |r.levels| == |levels|
    ensures forall v :: 0 <= v < |levels| ==>
      r.levels[v].objs == levels[v].objs && |r.levels[v].portals| == |levels[v].portals| + NewIn(v, p1, p2)
    ensures forall v, j :: 0 <= v < |levels| && 0 <= j < |levels[v].portals| ==>
      j < |r.levels[v].portals| && r.levels[v].portals[j] == levels[v].portals[j]
    ensures r.k1 == (p1.world, |levels[p1.world].portals|)
    ensures r.k2 == (p2.world, |levels[p2.world].portals| + if p1.world == p2.world then 1 else 0)
    ensures r.k1.1 < |r.levels[r.k1.0].portals| && r.levels[r.k1.0].portals[r.k1.1] == Portal(PortalPlane(p1, r1, td1), p1, r.k2, scale)
    ensures r.k2.1 < |r.levels[r.k2.0].portals| && r.levels[r.k2.0].portals[r.k2.1] == Portal(PortalPlane(p2, r2, td2), p2, r.k1, 1.0 / scale)
    ensures r.p.colliders == p.colliders + [PortalSensor(p1, r1), PortalSensor(p2, r2)] && r.p.body == p.body
    ensures r.h1 == |p.colliders| && r.h2 == |p.colliders| + 1
  {
    var a := AddToWorld(levels, p, p1, r1, td1, scale);
    var b := AddToWorld(a.0, a.1, p2, r2, td2, 1.0 / scale);
    var ls3 := SetConnecting(b.0, p1.world, a.3, (p2.world, b.3));
    var ls4 := SetConnecting(ls3, p2.world, b.3, (p1.world, a.3));
    Paired(ls4, b.1, a.2, (p1.world, a.3), b.2, (p2.world, b.3))
  }

  /**
   * One `Level::add_portal` call inside the list of worlds: world `at.world`
   * gains the portal at the end of its list, every other world and every
   * existing portal stays as it was.
   */
  function AddToWorld(levels: seq<Level>, p: Physics, at: PortalPos, r: real, td: real, scale: real): (res: (seq<Level>, Physics, nat, nat))
    requires at.world < |levels|
    ensures |res.0| == |levels|
    ensures forall v :: 0 <= v < |levels| ==>
      res.0[v].objs == levels[v].objs && |res.0[v].portals| == |levels[v].portals| + (if v == at.world then 1 else 0)
    ensures forall v, j :: 0 <= v < |levels| && 0 <= j < |levels[v].portals| ==> res.0[v].portals[j] == levels[v].portals[j]
    ensures res.3 == |levels[at.world].portals| && res.0[at.world].portals[res.3] == Portal(PortalPlane(at, r, td), at, (0, 0), scale)
    ensures res.1.colliders == p.colliders + [PortalSensor(at, r)] && res.1.body == p.body && res.2 == |p.colliders|
  {
    var a := LevelAddPortal(levels[at.world], p, at, r, td, scale);
    (levels[at.world := a.level], a.p, a.handle, a.idx)
  }

  /**
   * The paired insertion keeps every portal linked, with reciprocal scales,
   * keeps every portal in the world it names, and the two new sensor
   * handles name the two new portals.
   */
  lemma AddPairKeepsLinked(levels: seq<Level>, p: Physics, p1: PortalPos, p2: PortalPos,
                           r1: real, td1: real, r2: real, td2: real, scale: real)
    requires p1.world < |levels| && p2.world < |levels| && scale != 0.0
    requires Linked(levels) && Placed(levels)
    ensures var r := AddPair(levels, p, p1, p2, r1, td1, r2, td2, scale);
      Linked(r.levels) && Placed(r.levels) && IsPortal(r.levels, r.k1) && IsPortal(r.levels, r.k2)
  {
    var r := AddPair(levels, p, p1, p2, r1, td1, r2, td2, scale);
    forall w: nat, i: nat | w < |r.levels| && i < |r.levels[w].portals|
      ensures LinkedAt(r.levels, w, i) && r.levels[w].portals[i].at.world == w
    {
      if i < |levels[w].portals| {
        OldPortalLinked(levels, p, p1, p2, r1, td1, r2, td2, scale, w, i);
      } else if (w, i) == r.k1 {
        FirstPortalLinked(levels, p, p1, p2, r1, td1, r2, td2, scale);
      } else {
        assert (w, i) == r.k2;
        SecondPortalLinked(levels, p, p1, p2, r1, td1, r2, td2, scale);
      }
    }
  }

  /** A portal that was there before the paired insertion is still linked to its partner, in its own world. */
  lemma OldPortalLinked(levels: seq<Level>, p: Physics, p1: PortalPos, p2: PortalPos,
                        r1: real, td1: real, r2: real, td2: real, scale: real, w: nat, i: nat)
    requires p1.world < |levels| && p2.world < |levels| && scale != 0.0
    requires Linked(levels) && Placed(levels) && w < |levels| && i < |levels[w].portals|
    ensures var r := AddPair(levels, p, p1, p2, r1, td1, r2, td2, scale);
      LinkedAt(r.levels, w, i) && r.levels[w].portals[i].at.world == w
  {
    var r := AddPair(levels, p, p1, p2, r1, td1, r2, td2, scale);
    assert LinkedAt(levels, w, i);
    var c := levels[w].portals[i].connecting;
    assert r.levels[c.0].portals[c.1] == levels[c.0].portals[c.1];
    assert r.levels[w].portals[i] == levels[w].portals[i];
  }

  /** The first portal of a paired insertion leads to the second, with reciprocal scales, in its own world. */
  lemma FirstPortalLinked(levels: seq<Level>, p: Physics, p1: PortalPos, p2: PortalPos,
                          r1: real, td1: real, r2: real, td2: real, scale: real)
    requires p1.world < |levels| && p2.world < |levels| && scale != 0.0
    ensures var r := AddPair(levels, p, p1, p2, r1, td1, r2, td2, scale);
      LinkedAt(r.levels, r.k1.0, r.k1.1) && r.levels[r.k1.0].portals[r.k1.1].at.world == r.k1.0
  {
    assert 1.0 / scale * scale == 1.0;
  }

  /** The second portal of a paired insertion leads to the first, with reciprocal scales, in its own world. */
  lemma SecondPortalLinked(levels: seq<Level>, p: Physics, p1: PortalPos, p2: PortalPos,
                           r1: real, td1: real, r2: real, td2: real, scale: real)
    requires p1.world < |levels| && p2.world < |levels| && scale != 0.0
    ensures var r := AddPair(levels, p, p1, p2, r1, td1, r2, td2, scale);
      LinkedAt(r.levels, r.k2.0, r.k2.1) && r.levels[r.k2.0].portals[r.k2.1].at.world == r.k2.0
  {
    assert scale * (1.0 / scale) == 1.0;
  }

  /**
   * The paired insertion keeps every registered handle on a sensor that
   * names an existing portal, and the two new handles are sensors naming
   * the two new portals.
   */
  lemma AddPairKeepsMap(levels: seq<Level>, p: Physics, portalsMap: map<nat, (nat, nat)>, p1: PortalPos, p2: PortalPos,
                        r1: real, td1: real, r2: real, td2: real, scale: real)
    requires p1.world < |levels| && p2.world < |levels| && scale != 0.0
    requires MapOk(levels, portalsMap) && forall h | h in portalsMap :: h < |p.colliders| && p.colliders[h].sensor
    ensures var r := AddPair(levels, p, p1, p2, r1, td1, r2, td2, scale);
      var m := portalsMap[r.h1 := r.k1][r.h2 := r.k2];
      && MapOk(r.levels, m)
      && forall h | h in m :: h < |r.p.colliders| && r.p.colliders[h].sensor
  {
    var r := AddPair(levels, p, p1, p2, r1, td1, r2, td2, scale);
    var m := portalsMap[r.h1 := r.k1][r.h2 := r.k2];
    forall h | h in m
      ensures IsPortal(r.levels, m[h]) && h < |r.p.colliders| && r.p.colliders[h].sensor
    {
      if h != r.h1 && h != r.h2 {
        assert IsPortal(levels, portalsMap[h]);
        assert r.p.colliders[h] == p.colliders[h];
      }
    }
  }

  /** The arguments of one `MagicLevel::add_portal` call. */
  datatype PairSpec = PairSpec(p1: PortalPos, p2: PortalPos, r1: real, td1: real, r2: real, td2: real, scale: real)

  /** What a series of paired insertions changes: the worlds, the physics world and the sensor-handle map. */
  datatype Arena = Arena(levels: seq<Level>, p: Physics, portalsMap: map<nat, (nat, nat)>)

  /** Every call of the series names existing worlds and a non-zero scale. */
  predicate Fits(n: nat, specs: seq<PairSpec>) {
    forall i :: 0 <= i < |specs| ==> specs[i].p1.world < n && specs[i].p2.world < n && specs[i].scale != 0.0
  }

  /** One `MagicLevel::add_portal` call on an arena, registering both sensor handles. */
  function AddOne(a: Arena, s: PairSpec): (r: Arena)
    requires s.p1.world < |a.levels| && s.p2.world < |a.levels| && s.scale != 0.0
    ensures |r.levels| == |a.levels|
    ensures r.p.colliders == a.p.colliders + [PortalSensor(s.p1, s.r1), PortalSensor(s.p2, s.r2)] && r.p.body == a.p.body
  {
    var q := AddPair(a.levels, a.p, s.p1, s.p2, s.r1, s.td1, s.r2, s.td2, s.scale);
    Arena(q.levels, q.p, a.portalsMap[q.h1 := q.k1][q.h2 := q.k2])
  }

  /** The calls of a builder, in order. */
  function AddAll(a: Arena, specs: seq<PairSpec>): (r: Arena)
    requires Fits(|a.levels|, specs)
    ensures |r.levels| == |a.levels|
    decreases |specs|
  {
    if specs == [] then a
    else
      assert Fits(|a.levels|, specs[1..]) by {
        forall i | 0 <= i < |specs| - 1 ensures specs[1..][i] == specs[i + 1] { }
      }
      AddAll(AddOne(a, specs[0]), specs[1..])
  }

  /** How many portals the calls put in world `v`. */
  function Ends(specs: seq<PairSpec>, v: nat): nat {
    if specs == [] then 0 else NewIn(v, specs[0].p1, specs[0].p2) + Ends(specs[1..], v)
  }

  /** The worlds each call puts its two portals in. */
  function WorldsOf(specs: seq<PairSpec>): (r: seq<(nat, nat)>)
    ensures |r| == |specs|
    ensures forall k :: 0 <= k < |specs| ==> r[k] == (specs[k].p1.world, specs[k].p2.world)
  {
    seq(|specs|, k requires 0 <= k < |specs| => (specs[k].p1.world, specs[k].p2.world))
  }

  /** How many of the portal ends of the first `n` listed calls lie in world `v`. */
  function Tally(ws: seq<(nat, nat)>, n: nat, v: nat): nat
    requires n <= |ws|
  {
    if n == 0 then 0
    else Tally(ws, n - 1, v) + (if ws[n - 1].0 == v then 1 else 0) + (if ws[n - 1].1 == v then 1 else 0)
  }

  /** Counting the portals of two series of calls one after the other. */
  lemma {:induction false} EndsAppend(s: seq<PairSpec>, t: seq<PairSpec>, v: nat)
    ensures Ends(s + t, v) == Ends(s, v) + Ends(t, v)
    decreases |s|
  {
    if s == [] {
      assert s + t == t;
    } else {
      assert (s + t)[1..] == s[1..] + t;
      EndsAppend(s[1..], t, v);
    }
  }

  /** The calls up to and including call `k`. */
  lemma EndsSnoc(specs: seq<PairSpec>, k: nat, v: nat)
    requires k < |specs|
    ensures Ends(specs[..k + 1], v) == Ends(specs[..k], v) + NewIn(v, specs[k].p1, specs[k].p2)
  {
    assert specs[..k + 1] == specs[..k] + [specs[k]];
    EndsAppend(specs[..k], [specs[k]], v);
    assert [specs[k]][1..] == [];
  }

  /** Counting the portals of the first `k` calls needs only the worlds those calls name. */
  lemma {:induction false} EndsTally(specs: seq<PairSpec>, k: nat, v: nat)
    requires k <= |specs|
    ensures Ends(specs[..k], v) == Tally(WorldsOf(specs), k, v)
    decreases k
  {
    if k == 0 {
      assert specs[..0] == [];
    } else {
      EndsTally(specs, k - 1, v);
      EndsSnoc(specs, k - 1, v);
    }
  }

  /**
   * The series keeps the number of worlds and their planes, adds to each
   * world exactly the portals its calls put there and keeps every earlier
   * portal.
   */
  lemma {:induction false} AddAllCounts(a: Arena, specs: seq<PairSpec>)
    requires Fits(|a.levels|, specs)
    ensures var r := AddAll(a, specs);
      && (forall v :: 0 <= v < |a.levels| ==>
            r.levels[v].objs == a.levels[v].objs && |r.levels[v].portals| == |a.levels[v].portals| + Ends(specs, v))
      && (forall v, j :: 0 <= v < |a.levels| && 0 <= j < |a.levels[v].portals| ==>
            j < |r.levels[v].portals| && r.levels[v].portals[j] == a.levels[v].portals[j])
    decreases |specs|
  {
    if specs != [] {
      AddAllFirst(a, specs);
      AddAllCounts(AddOne(a, specs[0]), specs[1..]);
    }
  }

  /** The sensors the calls insert, two per call in call order. */
  function Sensors(specs: seq<PairSpec>): (r: seq<Collider>)
    ensures |r| == 2 * |specs|
  {
    if specs == [] then [] else [PortalSensor(specs[0].p1, specs[0].r1), PortalSensor(specs[0].p2, specs[0].r2)] + Sensors(specs[1..])
  }

  /** The series appends the sensors of its calls to the physics world, in order, and does not move the body. */
  lemma {:induction false} AddAllPhysics(a: Arena, specs: seq<PairSpec>)
    requires Fits(|a.levels|, specs)
    ensures var r := AddAll(a, specs);
      r.p.colliders == a.p.colliders + Sensors(specs) && r.p.body == a.p.body
    decreases |specs|
  {
    if specs != [] {
      var b := AddOne(a, specs[0]);
      var pair := [PortalSensor(specs[0].p1, specs[0].r1), PortalSensor(specs[0].p2, specs[0].r2)];
      AddAllFirst(a, specs);
      AddAllPhysics(b, specs[1..]);
      assert b.p.colliders == a.p.colliders + pair;
      Assoc(a.p.colliders, pair, Sensors(specs[1..]));
    }
  }

  /** Where call `i` of the series puts its first portal: after the portals already in that world. */
  function FirstSlot(a: Arena, specs: seq<PairSpec>, i: nat): (nat, nat)
    requires Fits(|a.levels|, specs) && i < |specs|
  {
    var w := specs[i].p1.world;
    (w, |a.levels[w].portals| + Ends(specs[..i], w))
  }

  /** Where call `i` puts its second portal: after those, and after its first one when both share a world. */
  function SecondSlot(a: Arena, specs: seq<PairSpec>, i: nat): (nat, nat)
    requires Fits(|a.levels|, specs) && i < |specs|
  {
    var w := specs[i].p2.world;
    (w, |a.levels[w].portals| + Ends(specs[..i], w) + if specs[i].p1.world == w then 1 else 0)
  }

  /** The worlds hold the two portals of call `s` at `k1` and `k2`, linked to each other with scales `scale` and `1 / scale`. */
  predicate PairAt(levels: seq<Level>, s: PairSpec, k1: (nat, nat), k2: (nat, nat))
    requires s.scale != 0.0
  {
    && IsPortal(levels, k1) && levels[k1.0].portals[k1.1] == Portal(PortalPlane(s.p1, s.r1, s.td1), s.p1, k2, s.scale)
    && IsPortal(levels, k2) && levels[k2.0].portals[k2.1] == Portal(PortalPlane(s.p2, s.r2, s.td2), s.p2, k1, 1.0 / s.scale)
  }

  /** Later calls leave a placed pair where it is. */
  lemma KeepsPair(b: Arena, rest: seq<PairSpec>, s: PairSpec, k1: (nat, nat), k2: (nat, nat))
    requires Fits(|b.levels|, rest) && s.scale != 0.0 && PairAt(b.levels, s, k1, k2)
    ensures PairAt(AddAll(b, rest).levels, s, k1, k2)
  {
    AddAllCounts(b, rest);
  }

  /** The series is its first call followed by the rest. */
  lemma AddAllFirst(a: Arena, specs: seq<PairSpec>)
    requires Fits(|a.levels|, specs) && 0 < |specs|
    ensures Fits(|AddOne(a, specs[0]).levels|, specs[1..])
    ensures AddAll(AddOne(a, specs[0]), specs[1..]) == AddAll(a, specs)
  {
    assert Fits(|AddOne(a, specs[0]).levels|, specs[1..]) by {
      forall j | 0 <= j < |specs| - 1 ensures specs[1..][j] == specs[j + 1] { }
    }
  }

  /** The portals the calls before call `i` put in world `v`: those of the first call, then those of the others. */
  lemma EndsBefore(specs: seq<PairSpec>, i: nat, v: nat)
    requires 0 < i < |specs|
    ensures Ends(specs[..i], v) == NewIn(v, specs[0].p1, specs[0].p2) + Ends(specs[1..][..i - 1], v)
  {
    assert specs[..i] == [specs[0]] + specs[1..][..i - 1];
    assert [specs[0]][1..] == [];
    EndsAppend([specs[0]], specs[1..][..i - 1], v);
  }

  /** Dropping the first call moves every later slot by the portals that call added. */
  lemma SlotsShift(a: Arena, specs: seq<PairSpec>, i: nat)
    requires Fits(|a.levels|, specs) && 0 < i < |specs|
    ensures Fits(|AddOne(a, specs[0]).levels|, specs[1..])
    ensures FirstSlot(AddOne(a, specs[0]), specs[1..], i - 1) == FirstSlot(a, specs, i)
    ensures SecondSlot(AddOne(a, specs[0]), specs[1..], i - 1) == SecondSlot(a, specs, i)
    ensures AddAll(AddOne(a, specs[0]), specs[1..]) == AddAll(a, specs)
  {
    AddAllFirst(a, specs);
    var s := specs[i];
    AddOneCount(a, specs[0], s.p1.world);
    AddOneCount(a, specs[0], s.p2.world);
    ShiftedSlots(a, AddOne(a, specs[0]), specs, i);
  }

  /** The slot arithmetic behind `SlotsShift`, for any arena `b` holding the first call's portals on top of `a`'s. */
  lemma ShiftedSlots(a: Arena, b: Arena, specs: seq<PairSpec>, i: nat)
    requires Fits(|a.levels|, specs) && 0 < i < |specs| && |b.levels| == |a.levels| && Fits(|b.levels|, specs[1..])
    requires var s := specs[i];
      && |b.levels[s.p1.world].portals| == |a.levels[s.p1.world].portals| + NewIn(s.p1.world, specs[0].p1, specs[0].p2)
      && |b.levels[s.p2.world].portals| == |a.levels[s.p2.world].portals| + NewIn(s.p2.world, specs[0].p1, specs[0].p2)
    ensures FirstSlot(b, specs[1..], i - 1) == FirstSlot(a, specs, i)
    ensures SecondSlot(b, specs[1..], i - 1) == SecondSlot(a, specs, i)
  {
    assert specs[1..][i - 1] == specs[i];
    EndsBefore(specs, i, specs[i].p1.world);
    EndsBefore(specs, i, specs[i].p2.world);
  }

  /** One call adds to world `v` exactly the portals it puts there. */
  lemma AddOneCount(a: Arena, s: PairSpec, v: nat)
    requires s.p1.world < |a.levels| && s.p2.world < |a.levels| && s.scale != 0.0 && v < |a.levels|
    ensures |AddOne(a, s).levels[v].portals| == |a.levels[v].portals| + NewIn(v, s.p1, s.p2)
  {
  }

  /**
   * Call `i` puts its first portal right after the portals already in its
   * world (those the builder started with and those of the earlier calls),
   * and its second portal after those (and after the first, in the same
   * world); the two are linked with scales `scale` and `1 / scale`.
   */
  lemma {:induction false} AddAllPlaces(a: Arena, specs: seq<PairSpec>, i: nat)
    requires Fits(|a.levels|, specs) && i < |specs|
    ensures PairAt(AddAll(a, specs).levels, specs[i], FirstSlot(a, specs, i), SecondSlot(a, specs, i))
    decreases i
  {
    if i == 0 {
      FirstPlaced(a, specs);
    } else {
      SlotsShift(a, specs, i);
      var b := AddOne(a, specs[0]);
      AddAllPlaces(b, specs[1..], i - 1);
      assert specs[1..][i - 1] == specs[i];
    }
  }

  /** The first call's pair survives the rest of the series. */
  lemma FirstPlaced(a: Arena, specs: seq<PairSpec>)
    requires Fits(|a.levels|, specs) && 0 < |specs|
    ensures PairAt(AddAll(a, specs).levels, specs[0], FirstSlot(a, specs, 0), SecondSlot(a, specs, 0))
  {
    var b := AddOne(a, specs[0]);
    assert Fits(|b.levels|, specs[1..]) by {
      forall j | 0 <= j < |specs| - 1 ensures specs[1..][j] == specs[j + 1] { }
    }
    assert specs[..0] == [];
    assert PairAt(b.levels, specs[0], FirstSlot(a, specs, 0), SecondSlot(a, specs, 0));
    KeepsPair(b, specs[1..], specs[0], FirstSlot(a, specs, 0), SecondSlot(a, specs, 0));
  }

  /** A series of paired insertions keeps every portal linked and in the world it names. */
  lemma {:induction false} AddAllKeepsLinked(a: Arena, specs: seq<PairSpec>)
    requires Fits(|a.levels|, specs) && Linked(a.levels) && Placed(a.levels)
    ensures Linked(AddAll(a, specs).levels) && Placed(AddAll(a, specs).levels)
    decreases |specs|
  {
    if specs != [] {
      var s := specs[0];
      AddPairKeepsLinked(a.levels, a.p, s.p1, s.p2, s.r1, s.td1, s.r2, s.td2, s.scale);
      var b := AddOne(a, s);
      assert Fits(|b.levels|, specs[1..]) by {
        forall j | 0 <= j < |specs| - 1 ensures specs[1..][j] == specs[j + 1] { }
      }
      AddAllKeepsLinked(b, specs[1..]);
    }
  }

  /** The floor of a world: the first plane of its first group. */
  predicate OnFloor(levels: seq<Level>, at: PortalPos) {
    && at.world < |levels| && |levels[at.world].objs| > 0 && |levels[at.world].objs[0]| > 0
    && at.pos.z == levels[at.world].objs[0][0].center.z + 1.0
  }

  /** Every portal of the calls stands one unit above the floor of the world it is placed in. */
  predicate Grounded(levels: seq<Level>, specs: seq<PairSpec>) {
    forall i :: 0 <= i < |specs| ==> OnFloor(levels, specs[i].p1) && OnFloor(levels, specs[i].p2)
  }

  /** The GPU state the traversal writes: the camera uniform and the passes recorded so far. */
  class Gpu {
    const uniform: CameraUniform
    var trace: seq<Pass>

    constructor ()
      ensures fresh(uniform) && trace == []
    {
      uniform := new CameraUniform();
      trace := [];
    }
  }

  /** No world has a portal yet. */
  predicate NoPortals(levels: seq<Level>) {
    forall w :: 0 <= w < |levels| ==> levels[w].portals == []
  }

  class MagicLevel {
    var levels: seq<Level>
    var p: Physics
    var me: Object
    var meWorld: nat
    var portalsMap: map<nat, (nat, nat)>
    /** The pool of portal views, each given by the width and height it was allocated with. */
    var portalViews: seq<(nat, nat)>

    /**
     * Every portal is linked and stored in the world it names, every
     * registered handle is a sensor naming a portal, the player's bounding
     * box exists, the player's world exists (unless a level of zero rooms
     * has no world at all), and the pool of views is not empty.
     */
    predicate Valid()
      reads this
    {
      && Ready(levels, portalsMap, me, p)
      && (meWorld < |levels| || levels == [])
      && (forall h | h in portalsMap :: h < |p.colliders| && p.colliders[h].sensor)
      && |portalViews| > 0
    }

    /** The fields a builder starts from: portal-free worlds, the player in world 0, `nViews` views of the surface's size. */
    constructor (levels: seq<Level>, p: Physics, me: Object, nViews: nat, surface: (nat, nat))
      requires NoPortals(levels) && me.bodyBounding < |p.colliders| && 0 < nViews
      ensures Valid()
      ensures this.levels == levels && this.p == p && this.me == me && meWorld == 0
      ensures portalsMap == map[] && portalViews == seq(nViews, _ => surface)
    {
      this.levels := levels;
      this.p := p;
      this.me := me;
      meWorld := 0;
      portalsMap := map[];
      portalViews := seq(nViews, _ => surface);
    }

    /** The traversal's view of this level. */
    function SceneOf(build: Camera -> M4, vertices: PlaneObject -> seq<V3>, look: CameraMap): Scene
      reads this
    {
      Scene(levels, |portalViews|, build, vertices, look)
    }

    /**
     * `MagicLevel::add_portal`: adds both portals, links them and registers
     * both sensor handles. `1 / scale` needs `scale` to be non-zero.
     */
    method AddPortal(p1: PortalPos, p2: PortalPos, r1: real, td1: real, r2: real, td2: real, scale: real)
      requires Valid() && p1.world < |levels| && p2.world < |levels| && scale != 0.0
      modifies this
      ensures Valid()
      ensures var r := AddPair(old(levels), old(p), p1, p2, r1, td1, r2, td2, scale);
        levels == r.levels && p == r.p && portalsMap == old(portalsMap)[r.h1 := r.k1][r.h2 := r.k2]
      ensures me == old(me) && meWorld == old(meWorld) && portalViews == old(portalViews)
    {
      var r := AddPair(levels, p, p1, p2, r1, td1, r2, td2, scale);
      AddPairKeepsLinked(levels, p, p1, p2, r1, td1, r2, td2, scale);
      AddPairKeepsMap(levels, p, portalsMap, p1, p2, r1, td1, r2, td2, scale);
      levels, p := r.levels, r.p;
      portalsMap := portalsMap[r.h1 := r.k1][r.h2 := r.k2];
    }

    /**
     * `MagicLevel::update` after the physics step, which leaves the body at
     * `stepped` and reports `events`: drains the events through the crossing
     * protocol and returns the camera with its eye on the body.
     */
    method Update(events: seq<CollisionEvent>, stepped: V3, camera: Camera) returns (camera': Camera)
      requires Valid()
      modifies this
      ensures Valid()
      ensures var st := Drain(old(levels), old(portalsMap), old(me), CrossedCamera,
                              Tick(camera, old(meWorld), old(p).(body := stepped), {}), events);
        p == st.p && meWorld == st.meWorld && camera' == st.camera.(eye := st.p.body)
      ensures levels == old(levels) && portalsMap == old(portalsMap) && me == old(me) && portalViews == old(portalViews)
    {
      ghost var target := Drain(levels, portalsMap, me, CrossedCamera, Tick(camera, meWorld, p.(body := stepped), {}), events);
      p := p.(body := stepped);
      var cam := camera;
      var coled: set<(nat, nat)> := {};
      var i := 0;
      while i < |events|
        invariant 0 <= i <= |events|
        invariant levels == old(levels) && portalsMap == old(portalsMap) && me == old(me) && portalViews == old(portalViews)
        invariant Valid()
        invariant Drain(levels, portalsMap, me, CrossedCamera, Tick(cam, meWorld, p, coled), events[i..]) == target
      {
        ghost var st := Tick(cam, meWorld, p, coled);
        assert Drain(levels, portalsMap, me, CrossedCamera, st, events[i..])
            == Drain(levels, portalsMap, me, CrossedCamera, Step(levels, portalsMap, me, CrossedCamera, st, events[i]), events[i + 1..]);
        var event := events[i];
        i := i + 1;
        if event.Stopped? {
          continue;
        }
        var handle := if event.c1 == me.colliderHandle then event.c2 else event.c1;
        if handle in portalsMap {
          var key := portalsMap[handle];
          if key in coled {
            continue;
          }
          cam := Cross(key, cam, coled);
          coled := coled + {key};
        }
      }
      camera' := cam.(eye := p.body);
    }

    /**
     * One crossing of the tick loop: the player steps through portal `key`
     * into the world of its partner, the body's bounding box is rescaled by
     * the portal's scale and the camera is carried across.
     */
    method Cross(key: (nat, nat), cam: Camera, coled: set<(nat, nat)>) returns (cam': Camera)
      requires Valid() && IsPortal(levels, key)
      modifies this`p, this`meWorld
      ensures Valid()
      ensures Tick(cam', meWorld, p, coled + {key})
           == Enter(levels, CrossedCamera, key, Tick(cam, old(meWorld), old(p), coled), me.bodyBounding)
    {
      var portal := levels[key.0].portals[key.1];
      assert LinkedAt(levels, key.0, key.1);
      var conn := levels[portal.connecting.0].portals[portal.connecting.1].at;
      cam' := CrossedCamera(cam, portal, conn);
      p := p.(body := cam'.eye);
      var box := p.colliders[me.bodyBounding];
      p := p.(colliders := p.colliders[me.bodyBounding := box.(halfExtents := Rescale(box.halfExtents, portal.scale))]);
      meWorld := conn.world;
    }

    /**
     * `MagicLevel::render_in_portal`: records exactly the passes of
     * `InPortal` and leaves the uniform holding `camera`'s matrix, as every
     * composite in it expects.
     */
    method RenderInPortal(key: (nat, nat), recDep: nat, camera: Camera, gpu: Gpu,
                          build: Camera -> M4, vertices: PlaneObject -> seq<V3>, look: CameraMap)
      requires Valid() && IsPortal(levels, key) && recDep < |portalViews|
      modifies gpu, gpu.uniform
      ensures gpu.trace == old(gpu.trace) + InPortal(SceneOf(build, vertices, look), key, recDep, camera)
      ensures gpu.uniform.viewProj == build(camera) && gpu.uniform.viewPosition == Point(camera.eye)
      decreases |portalViews| - recDep, 4
    {
      var s := SceneOf(build, vertices, look);
      gpu.uniform.UpdateViewProj(camera, build);
      var v := gpu.uniform.viewProj;
      gpu.trace := gpu.trace + [PortalDepth(key.0, key.1, recDep, v), PortalScene(key.0, recDep, v)];
      if recDep + 1 >= |portalViews| {
        assert InPortal(s, key, recDep, camera) == [PortalDepth(key.0, key.1, recDep, v), PortalScene(key.0, recDep, v)] + [];
        assert s == SceneOf(build, vertices, look);
        return;
      }
      ghost var front := [PortalDepth(key.0, key.1, recDep, v), PortalScene(key.0, recDep, v)];
      ScanPortals(key, recDep, camera, gpu, build, vertices, look);
      assert InPortal(s, key, recDep, camera) == front + Scan(s, key, recDep, camera, 0, 0);
      Assoc(old(gpu.trace), front, Scan(s, key, recDep, camera, 0, 0));
    }

    /** The outer loop of `render_in_portal`'s scan, over the worlds. */
    method ScanPortals(key: (nat, nat), recDep: nat, camera: Camera, gpu: Gpu,
                       build: Camera -> M4, vertices: PlaneObject -> seq<V3>, look: CameraMap)
      requires Valid() && IsPortal(levels, key) && recDep + 1 < |portalViews|
      requires gpu.uniform.viewProj == build(camera) && gpu.uniform.viewPosition == Point(camera.eye)
      modifies gpu, gpu.uniform
      ensures gpu.trace == old(gpu.trace) + Scan(SceneOf(build, vertices, look), key, recDep, camera, 0, 0)
      ensures gpu.uniform.viewProj == build(camera) && gpu.uniform.viewPosition == Point(camera.eye)
      decreases |portalViews| - recDep, 3
    {
      var s := SceneOf(build, vertices, look);
      var world := 0;
      while world < |levels|
        invariant world <= |levels|
        invariant gpu.uniform.viewProj == build(camera) && gpu.uniform.viewPosition == Point(camera.eye)
        invariant gpu.trace + Scan(s, key, recDep, camera, world, 0) == old(gpu.trace) + Scan(s, key, recDep, camera, 0, 0)
      {
        ScanWorld(key, recDep, camera, gpu, build, vertices, look, world);
        world := world + 1;
      }
      assert Scan(s, key, recDep, camera, world, 0) == [];
    }

    /** The inner loop of `render_in_portal`'s scan, over the portals of one world. */
    method ScanWorld(key: (nat, nat), recDep: nat, camera: Camera, gpu: Gpu,
                     build: Camera -> M4, vertices: PlaneObject -> seq<V3>, look: CameraMap, world: nat)
      requires Valid() && IsPortal(levels, key) && recDep + 1 < |portalViews| && world < |levels|
      requires gpu.uniform.viewProj == build(camera) && gpu.uniform.viewPosition == Point(camera.eye)
      modifies gpu, gpu.uniform
      ensures var s := SceneOf(build, vertices, look);
        gpu.trace + Scan(s, key, recDep, camera, world + 1, 0) == old(gpu.trace) + Scan(s, key, recDep, camera, world, 0)
      ensures gpu.uniform.viewProj == build(camera) && gpu.uniform.viewPosition == Point(camera.eye)
      decreases |portalViews| - recDep, 2
    {
      var s := SceneOf(build, vertices, look);
      var idx := 0;
      while idx < |levels[world].portals|
        invariant idx <= |levels[world].portals|
        invariant gpu.uniform.viewProj == build(camera) && gpu.uniform.viewPosition == Point(camera.eye)
        invariant gpu.trace + Scan(s, key, recDep, camera, world, idx) == old(gpu.trace) + Scan(s, key, recDep, camera, world, 0)
      {
        ScanNext(key, recDep, camera, gpu, build, vertices, look, world, idx);
        idx := idx + 1;
      }
      assert Scan(s, key, recDep, camera, world, idx) == Scan(s, key, recDep, camera, world + 1, 0);
    }

    /** One pass of the inner loop of `render_in_portal`'s scan: portal `idx` visited, the rest of the world's scan still to come. */
    method ScanNext(key: (nat, nat), recDep: nat, camera: Camera, gpu: Gpu,
                    build: Camera -> M4, vertices: PlaneObject -> seq<V3>, look: CameraMap, world: nat, idx: nat)
      requires Valid() && IsPortal(levels, key) && recDep + 1 < |portalViews|
      requires world < |levels| && idx < |levels[world].portals|
      requires gpu.uniform.viewProj == build(camera) && gpu.uniform.viewPosition == Point(camera.eye)
      modifies gpu, gpu.uniform
      ensures var s := SceneOf(build, vertices, look);
        gpu.trace + Scan(s, key, recDep, camera, world, idx + 1) == old(gpu.trace) + Scan(s, key, recDep, camera, world, idx)
      ensures gpu.uniform.viewProj == build(camera) && gpu.uniform.viewPosition == Point(camera.eye)
      decreases |portalViews| - recDep, 1
    {
      var s := SceneOf(build, vertices, look);
      ScanStep(s, key, recDep, camera, world, idx);
      VisitPortal(key, recDep, camera, gpu, build, vertices, look, world, idx);
      Assoc(old(gpu.trace), Visit(s, key, recDep, camera, world, idx), Scan(s, key, recDep, camera, world, idx + 1));
    }

    /**
     * One iteration of the scan in `render_in_portal`: the tests, then the
     * recursion through the portal's link and the composite with the
     * parent's uniform restored.
     */
    method VisitPortal(key: (nat, nat), recDep: nat, camera: Camera, gpu: Gpu,
                       build: Camera -> M4, vertices: PlaneObject -> seq<V3>, look: CameraMap, world: nat, idx: nat)
      requires Valid() && IsPortal(levels, key) && recDep + 1 < |portalViews|
      requires world < |levels| && idx < |levels[world].portals|
      requires gpu.uniform.viewProj == build(camera) && gpu.uniform.viewPosition == Point(camera.eye)
      modifies gpu, gpu.uniform
      ensures gpu.trace == old(gpu.trace) + Visit(SceneOf(build, vertices, look), key, recDep, camera, world, idx)
      ensures gpu.uniform.viewProj == build(camera) && gpu.uniform.viewPosition == Point(camera.eye)
      decreases |portalViews| - recDep, 0
    {
      var s := SceneOf(build, vertices, look);
      var portal := levels[world].portals[idx];
      if (world, idx) == key {
        return;
      }
      if AbsR(portal.at.pos.z - camera.eye.z) > 5.0 {
        return;
      }
      var seen := WillSeeFace(gpu.uniform.viewProj, vertices(portal.plane));
      if !seen {
        return;
      }
      if Dot(Sub(portal.at.pos, camera.eye), Sub(portal.at.pos, levels[key.0].portals[key.1].at.pos)) < 0.0 {
        return;
      }
      assert !Skipped(s, key, camera, (world, idx));
      assert LinkedAt(levels, world, idx);
      var portalCamera := Through(s, camera, (world, idx));
      RenderInPortal(portal.connecting, recDep + 1, portalCamera, gpu, build, vertices, look);
      gpu.uniform.UpdateViewProj(camera, build);
      gpu.trace := gpu.trace + [PortalComposite(world, idx, recDep, gpu.uniform.viewProj)];
    }

    /**
     * One iteration of the scan in `render`: the visibility test with the
     * uniform as it is, the height test, then the recursion at depth 0 and
     * the composite on screen with the camera's uniform restored.
     */
    method VisitOnScreen(camera: Camera, gpu: Gpu, build: Camera -> M4, vertices: PlaneObject -> seq<V3>, look: CameraMap, world: nat, idx: nat)
      requires Valid() && world < |levels| && idx < |levels[world].portals|
      modifies gpu, gpu.uniform
      ensures var s := SceneOf(build, vertices, look);
        if Hidden(s, camera, old(gpu.uniform.viewProj), world, idx)
        then gpu.trace == old(gpu.trace) && gpu.uniform.viewProj == old(gpu.uniform.viewProj)
        else gpu.trace == old(gpu.trace) + OnScreen(s, camera, world, idx) && gpu.uniform.viewProj == build(camera)
    {
      var s := SceneOf(build, vertices, look);
      var portal := levels[world].portals[idx];
      var seen := WillSeeFace(gpu.uniform.viewProj, vertices(portal.plane));
      if !seen {
        return;
      }
      if AbsR(portal.at.pos.z - camera.eye.z) > 5.0 {
        return;
      }
      assert LinkedAt(levels, world, idx);
      var portalCamera := Through(s, camera, (world, idx));
      RenderInPortal(portal.connecting, 0, portalCamera, gpu, build, vertices, look);
      gpu.uniform.UpdateViewProj(camera, build);
      gpu.trace := gpu.trace + [ScreenComposite(world, idx, gpu.uniform.viewProj)];
    }

    /** The start of `MagicLevel::render`: every view is reallocated when the first one no longer has the surface's size. */
    method ResizeViews(surface: (nat, nat))
      requires Valid()
      modifies this`portalViews
      ensures Valid()
      ensures portalViews == if old(portalViews)[0] != surface then seq(|old(portalViews)|, _ => surface) else old(portalViews)
    {
      if portalViews[0] != surface {
        var k := 0;
        while k < |portalViews|
          invariant k <= |portalViews| == |old(portalViews)|
          invariant forall j :: 0 <= j < k ==> portalViews[j] == surface
        {
          portalViews := portalViews[k := surface];
          k := k + 1;
        }
        assert portalViews == seq(|old(portalViews)|, _ => surface);
      }
    }

    /**
     * `MagicLevel::render`: resizes the views, then records exactly the
     * passes of `RenderTrace` from the uniform the caller left. A level
     * with no world at all would index `levels[me_world]` out of bounds.
     */
    method Render(camera: Camera, gpu: Gpu, build: Camera -> M4, vertices: PlaneObject -> seq<V3>, look: CameraMap, surface: (nat, nat))
      requires Valid() && levels != []
      modifies this`portalViews, gpu, gpu.uniform
      ensures Valid()
      ensures portalViews == if old(portalViews)[0] != surface then seq(|old(portalViews)|, _ => surface) else old(portalViews)
      ensures gpu.trace == old(gpu.trace) + RenderTrace(SceneOf(build, vertices, look), meWorld, camera, old(gpu.uniform.viewProj))
    {
      ResizeViews(surface);
      gpu.trace := gpu.trace + [MainScene(meWorld, gpu.uniform.viewProj)];
      ScreenAll(camera, gpu, build, vertices, look);
    }

    /** The outer loop of `render`, over the worlds: records `TopScan` from the first portal of the first world. */
    method ScreenAll(camera: Camera, gpu: Gpu, build: Camera -> M4, vertices: PlaneObject -> seq<V3>, look: CameraMap)
      requires Valid()
      modifies gpu, gpu.uniform
      ensures gpu.trace == old(gpu.trace) + TopScan(SceneOf(build, vertices, look), camera, old(gpu.uniform.viewProj), 0, 0)
    {
      var s := SceneOf(build, vertices, look);
      var world := 0;
      while world < |levels|
        invariant world <= |levels|
        invariant gpu.trace + TopScan(s, camera, gpu.uniform.viewProj, world, 0)
               == old(gpu.trace) + TopScan(s, camera, old(gpu.uniform.viewProj), 0, 0)
      {
        ScreenWorld(camera, gpu, build, vertices, look, world);
        world := world + 1;
      }
      assert gpu.trace + [] == gpu.trace;
    }

    /** The inner loop of `render`, over the portals of one world. */
    method ScreenWorld(camera: Camera, gpu: Gpu, build: Camera -> M4, vertices: PlaneObject -> seq<V3>, look: CameraMap, world: nat)
      requires Valid() && world < |levels|
      modifies gpu, gpu.uniform
      ensures var s := SceneOf(build, vertices, look);
        gpu.trace + TopScan(s, camera, gpu.uniform.viewProj, world + 1, 0)
          == old(gpu.trace) + TopScan(s, camera, old(gpu.uniform.viewProj), world, 0)
    {
      var s := SceneOf(build, vertices, look);
      ghost var cur0 := gpu.uniform.viewProj;
      var idx := 0;
      while idx < |levels[world].portals|
        invariant idx <= |levels[world].portals|
        invariant gpu.trace + TopScan(s, camera, gpu.uniform.viewProj, world, idx) == old(gpu.trace) + TopScan(s, camera, cur0, world, 0)
      {
        ghost var before, cur := gpu.trace, gpu.uniform.viewProj;
        TopScanStep(s, camera, cur, world, idx);
        VisitOnScreen(camera, gpu, build, vertices, look, world, idx);
        if !Hidden(s, camera, cur, world, idx) {
          Assoc(before, OnScreen(s, camera, world, idx), TopScan(s, camera, gpu.uniform.viewProj, world, idx + 1));
        }
        idx := idx + 1;
      }
      assert TopScan(s, camera, gpu.uniform.viewProj, world, idx) == TopScan(s, camera, gpu.uniform.viewProj, world + 1, 0);
    }
  }
}

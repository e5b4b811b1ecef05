/**
 * Building a `MagicLevel`, as every builder does it: the portal-less worlds
 * in order (any missing texture aborts the build), the player object, the
 * level with its pool of views, then the `add_portal` calls. Also
 * `MagicLevel::new` of `src/state/real_view/level.rs`, which builds the
 * normal level, the fat tunnel and the long tunnel and joins them with four
 * portal pairs.
 */
module Builder {
  import opened Vec
  import opened Wrappers
  import opened Physics
  import opened Portals
  import opened Levels
  import opened Crossing
  import opened Magic

  /** One world of a builder: the textures its builder looks up and its plane groups. */
  datatype WorldSpec = WorldSpec(needed: set<string>, groups: seq<seq<PlaneObject>>)

  /** The portal-less worlds a table of builders produces, in order. */
  function Shapes(ws: seq<WorldSpec>): (r: seq<Level>)
    ensures |r| == |ws| && NoPortals(r)
    ensures forall k :: 0 <= k < |ws| ==> r[k].objs == ws[k].groups
  {
    seq(|ws|, k requires 0 <= k < |ws| => Level([], ws[k].groups))
  }

  /** The solid colliders of the worlds of a table, world after world. */
  function WorldColliders(ws: seq<WorldSpec>): seq<Collider>
    decreases |ws|
  {
    if ws == [] then [] else WorldColliders(ws[..|ws| - 1]) + GroupColliders(ws[|ws| - 1].groups)
  }

  /** Every builder of the table finds its textures. */
  predicate Loaded(textures: set<string>, ws: seq<WorldSpec>) {
    forall k :: 0 <= k < |ws| ==> ws[k].needed <= textures
  }

  /**
   * The world-building calls of a builder, each through `?`: the first
   * builder that misses a texture aborts with "NO TEXTURE"; otherwise the
   * worlds in order and the physics world holding all their planes.
   */
  method BuildWorlds(textures: set<string>, ws: seq<WorldSpec>) returns (r: Result<(seq<Level>, Physics), string>)
    ensures r.Ok? <==> Loaded(textures, ws)
    ensures r.Err? ==> r.error == NoTexture
    ensures r.Ok? ==> r.value.0 == Shapes(ws) && r.value.1 == Physics(WorldColliders(ws), Zero)
  {
    var levels: seq<Level> := [];
    var p := EmptyWorld(Zero);
    var i := 0;
    while i < |ws|
      invariant i <= |ws| && Loaded(textures, ws[..i])
      invariant levels == Shapes(ws[..i]) && p == Physics(WorldColliders(ws[..i]), Zero)
    {
      var w := TexturedLevel(p, textures, ws[i].needed, ws[i].groups);
      if w.Err? {
        return Err(w.error);
      }
      WorldStep(textures, ws, i);
      levels := levels + [w.value.0];
      p := w.value.1;
      i := i + 1;
    }
    assert ws[..i] == ws;
    r := Ok((levels, p));
  }

  /** One more world of the table: its shape and its planes come after the others'. */
  lemma WorldStep(textures: set<string>, ws: seq<WorldSpec>, i: nat)
    requires i < |ws|
    ensures Shapes(ws[..i + 1]) == Shapes(ws[..i]) + [Level([], ws[i].groups)]
    ensures WorldColliders(ws[..i + 1]) == WorldColliders(ws[..i]) + GroupColliders(ws[i].groups)
    ensures Loaded(textures, ws[..i + 1]) <==> Loaded(textures, ws[..i]) && ws[i].needed <= textures
  {
    assert ws[..i + 1][..i] == ws[..i];
  }

  /**
   * The `add_portal` calls of a builder, in order. Every call keeps the
   * level valid, and together they do to the worlds, the physics world and
   * the handle map exactly what `AddAll` says.
   */
  method AddPortals(m: MagicLevel, specs: seq<PairSpec>)
    requires m.Valid() && Fits(|m.levels|, specs)
    modifies m
    ensures m.Valid()
    ensures Arena(m.levels, m.p, m.portalsMap) == AddAll(old(Arena(m.levels, m.p, m.portalsMap)), specs)
    ensures m.me == old(m.me) && m.meWorld == old(m.meWorld) && m.portalViews == old(m.portalViews)
    decreases |specs|
  {
    if specs != [] {
      AddAllFirst(Arena(m.levels, m.p, m.portalsMap), specs);
      AddSpec(m, specs[0]);
      AddPortals(m, specs[1..]);
    }
  }

  /** One `add_portal` call of a builder, as `AddOne` says. */
  method AddSpec(m: MagicLevel, s: PairSpec)
    requires m.Valid() && s.p1.world < |m.levels| && s.p2.world < |m.levels| && s.scale != 0.0
    modifies m
    ensures m.Valid()
    ensures Arena(m.levels, m.p, m.portalsMap) == AddOne(old(Arena(m.levels, m.p, m.portalsMap)), s)
    ensures m.me == old(m.me) && m.meWorld == old(m.meWorld) && m.portalViews == old(m.portalViews)
  {
    m.AddPortal(s.p1, s.p2, s.r1, s.td1, s.r2, s.td2, s.scale);
  }

  /** Where the player's body starts in every builder. */
  const Start: V3 := V3(-3.0, 3.0, 1.0)

  /** The arena a builder starts its `add_portal` calls from: its worlds, their planes, then the player's two colliders. */
  function StartArena(ws: seq<WorldSpec>): Arena {
    Arena(Shapes(ws), Physics(WorldColliders(ws) + [Collider(BodyBounding, Zero, None, false), MeCollider], Start), map[])
  }

  /**
   * A builder: its worlds from the table, the player at (-3, 3, 1) in
   * world 0, `nViews` views of the surface's size, then the portal pairs.
   * It fails, with "NO TEXTURE", exactly when a world misses a texture.
   */
  method Assemble(textures: set<string>, surface: (nat, nat), ws: seq<WorldSpec>, nViews: nat, pairs: seq<PairSpec>)
    returns (r: Result<MagicLevel, string>)
    requires Fits(|ws|, pairs) && 0 < nViews
    ensures r.Ok? <==> Loaded(textures, ws)
    ensures r.Err? ==> r.error == NoTexture
    ensures r.Ok? ==> fresh(r.value) && r.value.Valid()
    ensures r.Ok? ==> r.value.meWorld == 0 && r.value.portalViews == seq(nViews, _ => surface)
    ensures r.Ok? ==> r.value.me == Object(|WorldColliders(ws)|, |WorldColliders(ws)| + 1)
    ensures r.Ok? ==> Arena(r.value.levels, r.value.p, r.value.portalsMap) == AddAll(StartArena(ws), pairs)
  {
    var w :- BuildWorlds(textures, ws);
    var (p', me) := NewObject(w.1, MeCollider, Start);
    var m := new MagicLevel(w.0, p', me, nViews, surface);
    AddPortals(m, pairs);
    r := Ok(m);
  }

  /**
   * What a builder's `add_portal` calls leave: as many worlds as the table,
   * each with the planes of its builder and exactly the portals the calls
   * put there, every portal linked to its partner and stored in the world
   * it names; the physics world holds the planes' colliders followed by
   * the portals' sensors.
   */
  lemma Built(ws: seq<WorldSpec>, pairs: seq<PairSpec>)
    requires Fits(|ws|, pairs)
    ensures var r := AddAll(StartArena(ws), pairs);
      && |r.levels| == |ws| && Linked(r.levels) && Placed(r.levels)
      && forall v :: 0 <= v < |ws| ==> r.levels[v].objs == ws[v].groups && |r.levels[v].portals| == Ends(pairs, v)
    ensures AddAll(StartArena(ws), pairs).p.colliders == StartArena(ws).p.colliders + Sensors(pairs)
  {
    var a := StartArena(ws);
    AddAllCounts(a, pairs);
    AddAllKeepsLinked(a, pairs);
    AddAllPhysics(a, pairs);
  }

  /** The portal the builders use: up axis z, with the given world, place, normal and width. */
  function Wall(world: nat, pos: V3, outNormal: V3, width: real): PortalPos {
    PortalPos(world, pos, outNormal, UnitZ, width)
  }

  /** The worlds of `MagicLevel::new`: normal level, fat tunnel, long tunnel, each needing "gf", "bf" and "pf". */
  const NewWorlds: seq<WorldSpec> := [
    WorldSpec(AllThree, [NormalGround, NormalBlocks]),
    WorldSpec(AllThree, [FatGround, FatBlocks]),
    WorldSpec(AllThree, [LongGround, LongBlocks])]

  /**
   * The four `add_portal` calls of `MagicLevel::new`, as written: the last
   * one puts its second portal in world 1 (the fat tunnel) at the height of
   * the long tunnel's floor.
   */
  const NewPairsAsWritten: seq<PairSpec> := [
    PairSpec(Wall(0, V3(1.0, 0.0, 1.0), UnitX, 1.0), Wall(1, V3(5.0, 0.0, 1.0 + ZOffset), Neg(UnitX), 5.0), 1.0, 0.5, 5.0, 2.5, 5.0),
    PairSpec(Wall(0, V3(-1.0, 0.0, 1.0), Neg(UnitX), 1.0), Wall(1, V3(-5.0, 0.0, 1.0 + ZOffset), UnitX, 5.0), 1.0, 0.5, 5.0, 2.5, 5.0),
    PairSpec(Wall(0, V3(5.0, 1.0, 1.0), UnitX, 1.0), Wall(2, V3(5.0, 0.0, 1.0 + ZOffset * 2.0), Neg(UnitX), 1.0), 1.0, 0.5, 1.0, 0.5, 1.0),
    PairSpec(Wall(0, V3(3.0, 1.0, 1.0), Neg(UnitX), 1.0), Wall(1, V3(-5.0, 0.0, 1.0 + ZOffset * 2.0), UnitX, 5.0), 1.0, 0.5, 1.0, 0.5, 1.0)]

  /** The calls of `MagicLevel::new` with the last one's second portal in the long tunnel (world 2), where its height belongs. */
  const NewPairs: seq<PairSpec> := NewPairsAsWritten[3 := NewPairsAsWritten[3].(p2 := NewPairsAsWritten[3].p2.(world := 2))]

  /** `MagicLevel::new` succeeds exactly when "gf", "bf" and "pf" are all loaded. */
  lemma NewNeeds(textures: set<string>)
    ensures Loaded(textures, NewWorlds) <==> AllThree <= textures
  {
    if AllThree <= textures {
      forall k | 0 <= k < |NewWorlds| ensures NewWorlds[k].needed <= textures { }
    } else {
      assert NewWorlds[0].needed == AllThree;
    }
  }

  /**
   * `MagicLevel::new`: fails with "NO TEXTURE" unless "gf", "bf" and "pf"
   * are loaded; otherwise the three worlds in order, the player at
   * (-3, 3, 1) in world 0, five views of the surface's size and the four
   * portal pairs as written, the last one ending in the fat tunnel.
   */
  method New(textures: set<string>, surface: (nat, nat)) returns (r: Result<MagicLevel, string>)
    ensures r.Ok? <==> AllThree <= textures
    ensures r.Err? ==> r.error == NoTexture
    ensures r.Ok? ==> fresh(r.value) && r.value.Valid() && r.value.meWorld < |r.value.levels|
    ensures r.Ok? ==> r.value.meWorld == 0 && r.value.portalViews == seq(5, _ => surface)
    ensures r.Ok? ==> Arena(r.value.levels, r.value.p, r.value.portalsMap) == AddAll(StartArena(NewWorlds), NewPairsAsWritten)
  {
    NewNeeds(textures);
    NewJoins();
    r := Assemble(textures, surface, NewWorlds, 5, NewPairsAsWritten);
  }

  /** `MagicLevel::new` with its last pair ending in the long tunnel, as its height says it should. */
  method NewCorrected(textures: set<string>, surface: (nat, nat)) returns (r: Result<MagicLevel, string>)
    ensures r.Ok? <==> AllThree <= textures
    ensures r.Err? ==> r.error == NoTexture
    ensures r.Ok? ==> fresh(r.value) && r.value.Valid() && r.value.meWorld < |r.value.levels|
    ensures r.Ok? ==> r.value.meWorld == 0 && r.value.portalViews == seq(5, _ => surface)
    ensures r.Ok? ==> Arena(r.value.levels, r.value.p, r.value.portalsMap) == AddAll(StartArena(NewWorlds), NewPairs)
  {
    NewNeeds(textures);
    NewJoins();
    r := Assemble(textures, surface, NewWorlds, 5, NewPairs);
  }

  /**
   * Where call `i` of a series puts its two portals: the first after the
   * portals the earlier calls put in its world, the second after those
   * (and after the first, when both share a world).
   */
  function Slots(w: seq<(nat, nat)>, i: nat): (k: ((nat, nat), (nat, nat)))
    requires i < |w|
    ensures k.0.0 == w[i].0 && k.1.0 == w[i].1 && k.0 != k.1
  {
    ((w[i].0, Tally(w, i, w[i].0)), (w[i].1, Tally(w, i, w[i].1) + if w[i].0 == w[i].1 then 1 else 0))
  }

  /** Portals `k1` and `k2` exist and lead to each other, `k1` with scale `scale`, `k2` with its inverse. */
  predicate Joins(l: seq<Level>, k1: (nat, nat), k2: (nat, nat), scale: real) {
    && IsPortal(l, k1) && IsPortal(l, k2)
    && l[k1.0].portals[k1.1].connecting == k2 && l[k2.0].portals[k2.1].connecting == k1
    && scale != 0.0 && l[k1.0].portals[k1.1].scale == scale && l[k2.0].portals[k2.1].scale == 1.0 / scale
  }

  /**
   * Call `i` of a builder leaves its two portals at `Slots`, built from its
   * arguments and joined with scales `scale` and `1 / scale`.
   */
  lemma PairPlaced(ws: seq<WorldSpec>, pairs: seq<PairSpec>, i: nat)
    requires Fits(|ws|, pairs) && i < |pairs|
    ensures var l, k := AddAll(StartArena(ws), pairs).levels, Slots(WorldsOf(pairs), i);
      PairAt(l, pairs[i], k.0, k.1) && Joins(l, k.0, k.1, pairs[i].scale)
  {
    var a, k := StartArena(ws), Slots(WorldsOf(pairs), i);
    AddAllPlaces(a, pairs, i);
    StartSlots(ws, pairs, i);
    PairJoins(AddAll(a, pairs).levels, pairs[i], k.0, k.1);
  }

  /** From a builder's portal-less worlds, `Slots` are the slots `AddAll` fills. */
  lemma StartSlots(ws: seq<WorldSpec>, pairs: seq<PairSpec>, i: nat)
    requires Fits(|ws|, pairs) && i < |pairs|
    ensures Slots(WorldsOf(pairs), i) == (FirstSlot(StartArena(ws), pairs, i), SecondSlot(StartArena(ws), pairs, i))
  {
    EndsTally(pairs, i, pairs[i].p1.world);
    EndsTally(pairs, i, pairs[i].p2.world);
  }

  /** A placed pair joins its two portals. */
  lemma PairJoins(l: seq<Level>, s: PairSpec, k1: (nat, nat), k2: (nat, nat))
    requires s.scale != 0.0 && PairAt(l, s, k1, k2)
    ensures Joins(l, k1, k2, s.scale)
  {
  }

  /** After a builder's calls every world holds as many portals as the calls put there. */
  lemma Counted(ws: seq<WorldSpec>, pairs: seq<PairSpec>)
    requires Fits(|ws|, pairs)
    ensures var r := AddAll(StartArena(ws), pairs);
      |r.levels| == |ws| && forall v :: 0 <= v < |ws| ==> |r.levels[v].portals| == Tally(WorldsOf(pairs), |pairs|, v)
  {
    Built(ws, pairs);
    assert pairs[..|pairs|] == pairs;
    forall v | 0 <= v < |ws| ensures Ends(pairs, v) == Tally(WorldsOf(pairs), |pairs|, v) {
      EndsTally(pairs, |pairs|, v);
    }
  }

  /** The worlds the calls of `MagicLevel::new` join: two pairs to the fat tunnel, two to the long tunnel. */
  lemma NewJoins()
    ensures Fits(3, NewPairs) && Fits(3, NewPairsAsWritten)
    ensures WorldsOf(NewPairs) == [(0, 1), (0, 1), (0, 2), (0, 2)]
    ensures WorldsOf(NewPairsAsWritten) == [(0, 1), (0, 1), (0, 2), (0, 1)]
    ensures var w := WorldsOf(NewPairs); Tally(w, 4, 0) == 4 && Tally(w, 4, 1) == 2 && Tally(w, 4, 2) == 2
    ensures var w := WorldsOf(NewPairsAsWritten); Tally(w, 4, 0) == 4 && Tally(w, 4, 1) == 3 && Tally(w, 4, 2) == 1
  {
    assert Tally([(0, 1), (0, 1), (0, 2), (0, 2)], 4, 0) == 4;
    assert Tally([(0, 1), (0, 1), (0, 2), (0, 2)], 4, 1) == 2;
    assert Tally([(0, 1), (0, 1), (0, 2), (0, 2)], 4, 2) == 2;
    assert Tally([(0, 1), (0, 1), (0, 2), (0, 1)], 4, 1) == 3;
    assert Tally([(0, 1), (0, 1), (0, 2), (0, 1)], 4, 2) == 1;
  }

  /**
   * After `MagicLevel::new`, as written, the normal level holds four
   * portals, the fat tunnel three and the long tunnel one, whatever planes
   * the three worlds have.
   */
  lemma NewCounts(ws: seq<WorldSpec>)
    requires |ws| == 3
    ensures Fits(|ws|, NewPairsAsWritten)
    ensures var r := AddAll(StartArena(ws), NewPairsAsWritten);
      |r.levels| == 3 && |r.levels[0].portals| == 4 && |r.levels[1].portals| == 3 && |r.levels[2].portals| == 1
  {
    NewJoins();
    Counted(ws, NewPairsAsWritten);
  }

  /** Where the four calls of `MagicLevel::new` put their portals: the last one's second portal is the fat tunnel's third. */
  lemma NewSlots()
    ensures var w := [(0, 1), (0, 1), (0, 2), (0, 1)];
      && Slots(w, 0) == ((0, 0), (1, 0)) && Slots(w, 1) == ((0, 1), (1, 1))
      && Slots(w, 2) == ((0, 2), (2, 0)) && Slots(w, 3) == ((0, 3), (1, 2))
  {
  }

  /** Where the corrected calls put their portals. */
  lemma NewSlotsCorrected()
    ensures var w := [(0, 1), (0, 1), (0, 2), (0, 2)];
      && Slots(w, 0) == ((0, 0), (1, 0)) && Slots(w, 1) == ((0, 1), (1, 1))
      && Slots(w, 2) == ((0, 2), (2, 0)) && Slots(w, 3) == ((0, 3), (2, 1))
  {
  }

  /**
   * The portal graph of `MagicLevel::new` as written: the normal level's
   * portals 0, 1 and 3 lead to the fat tunnel's 0, 1 and 2, the first two
   * magnifying by 5 (the way back by 1/5), and its portal 2 leads to the
   * long tunnel's first portal at scale 1.
   */
  predicate WrittenShape(l: seq<Level>) {
    && |l| == 3 && |l[0].portals| >= 4 && |l[1].portals| >= 3 && |l[2].portals| >= 1
    && l[0].portals[0].connecting == (1, 0) && l[1].portals[0].connecting == (0, 0)
    && l[0].portals[1].connecting == (1, 1) && l[1].portals[1].connecting == (0, 1)
    && l[0].portals[2].connecting == (2, 0) && l[2].portals[0].connecting == (0, 2)
    && l[0].portals[3].connecting == (1, 2) && l[1].portals[2].connecting == (0, 3)
    && l[0].portals[0].scale == 5.0 && l[1].portals[0].scale == 1.0 / 5.0
    && l[0].portals[1].scale == 5.0 && l[1].portals[1].scale == 1.0 / 5.0
    && l[0].portals[2].scale == 1.0 && l[2].portals[0].scale == 1.0
    && l[0].portals[3].scale == 1.0 && l[1].portals[2].scale == 1.0
  }

  /** Any four calls joining the worlds as `MagicLevel::new` does as written, with its scales, build that graph. */
  lemma WrittenGraph(ws: seq<WorldSpec>, pairs: seq<PairSpec>)
    requires |ws| == 3 && Fits(3, pairs) && WorldsOf(pairs) == [(0, 1), (0, 1), (0, 2), (0, 1)]
    requires pairs[0].scale == 5.0 && pairs[1].scale == 5.0 && pairs[2].scale == 1.0 && pairs[3].scale == 1.0
    ensures var l := AddAll(StartArena(ws), pairs).levels;
      && |l| == 3 && |l[0].portals| >= 4 && |l[1].portals| >= 3 && |l[2].portals| >= 1
      && l[0].portals[0].connecting == (1, 0) && l[1].portals[0].connecting == (0, 0)
      && l[0].portals[1].connecting == (1, 1) && l[1].portals[1].connecting == (0, 1)
      && l[0].portals[2].connecting == (2, 0) && l[2].portals[0].connecting == (0, 2)
      && l[0].portals[3].connecting == (1, 2) && l[1].portals[2].connecting == (0, 3)
      && l[0].portals[0].scale == 5.0 && l[1].portals[0].scale == 1.0 / 5.0
      && l[0].portals[1].scale == 5.0 && l[1].portals[1].scale == 1.0 / 5.0
      && l[0].portals[2].scale == 1.0 && l[2].portals[0].scale == 1.0
      && l[0].portals[3].scale == 1.0 && l[1].portals[2].scale == 1.0
  {
    NewSlots();
    PairPlaced(ws, pairs, 0);
    PairPlaced(ws, pairs, 1);
    PairPlaced(ws, pairs, 2);
    PairPlaced(ws, pairs, 3);
  }

  /**
   * `MagicLevel::new` builds the as-written graph whatever planes the
   * three worlds have: the fat tunnel's third portal and the long tunnel's
   * only one lead back to the normal level.
   */
  lemma NewGraph(ws: seq<WorldSpec>)
    requires |ws| == 3
    ensures Fits(|ws|, NewPairsAsWritten) && WrittenShape(AddAll(StartArena(ws), NewPairsAsWritten).levels)
  {
    NewJoins();
    WrittenGraph(ws, NewPairsAsWritten);
  }

  /**
   * The corrected portal graph: the normal level's portals 0 and 1 lead to
   * the fat tunnel's 0 and 1, magnifying by 5 (the way back by 1/5); its
   * portals 2 and 3 lead to the long tunnel's 0 and 1 at scale 1.
   */
  predicate NewShape(l: seq<Level>) {
    && |l| == 3 && |l[0].portals| >= 4 && |l[1].portals| >= 2 && |l[2].portals| >= 2
    && l[0].portals[0].connecting == (1, 0) && l[1].portals[0].connecting == (0, 0)
    && l[0].portals[1].connecting == (1, 1) && l[1].portals[1].connecting == (0, 1)
    && l[0].portals[2].connecting == (2, 0) && l[2].portals[0].connecting == (0, 2)
    && l[0].portals[3].connecting == (2, 1) && l[2].portals[1].connecting == (0, 3)
    && l[0].portals[0].scale == 5.0 && l[1].portals[0].scale == 1.0 / 5.0
    && l[0].portals[1].scale == 5.0 && l[1].portals[1].scale == 1.0 / 5.0
    && l[0].portals[2].scale == 1.0 && l[2].portals[0].scale == 1.0
    && l[0].portals[3].scale == 1.0 && l[2].portals[1].scale == 1.0
  }

  /** Any four calls joining the worlds as the corrected table does, with its scales, build the corrected graph. */
  lemma CorrectedGraph(ws: seq<WorldSpec>, pairs: seq<PairSpec>)
    requires |ws| == 3 && Fits(3, pairs) && WorldsOf(pairs) == [(0, 1), (0, 1), (0, 2), (0, 2)]
    requires pairs[0].scale == 5.0 && pairs[1].scale == 5.0 && pairs[2].scale == 1.0 && pairs[3].scale == 1.0
    ensures var l := AddAll(StartArena(ws), pairs).levels;
      && |l| == 3 && |l[0].portals| >= 4 && |l[1].portals| >= 2 && |l[2].portals| >= 2
      && l[0].portals[0].connecting == (1, 0) && l[1].portals[0].connecting == (0, 0)
      && l[0].portals[1].connecting == (1, 1) && l[1].portals[1].connecting == (0, 1)
      && l[0].portals[2].connecting == (2, 0) && l[2].portals[0].connecting == (0, 2)
      && l[0].portals[3].connecting == (2, 1) && l[2].portals[1].connecting == (0, 3)
      && l[0].portals[0].scale == 5.0 && l[1].portals[0].scale == 1.0 / 5.0
      && l[0].portals[1].scale == 5.0 && l[1].portals[1].scale == 1.0 / 5.0
      && l[0].portals[2].scale == 1.0 && l[2].portals[0].scale == 1.0
      && l[0].portals[3].scale == 1.0 && l[2].portals[1].scale == 1.0
  {
    NewSlotsCorrected();
    PairPlaced(ws, pairs, 0);
    PairPlaced(ws, pairs, 1);
    PairPlaced(ws, pairs, 2);
    PairPlaced(ws, pairs, 3);
  }

  /** The corrected calls build the corrected graph, whatever planes the three worlds have. */
  lemma NewLinks(ws: seq<WorldSpec>)
    requires |ws| == 3
    ensures Fits(|ws|, NewPairs) && NewShape(AddAll(StartArena(ws), NewPairs).levels)
  {
    NewJoins();
    CorrectedGraph(ws, NewPairs);
  }

  /** Every portal of the corrected calls stands one unit above the floor of its world, as the player does. */
  lemma NewGrounded()
    ensures Grounded(Shapes(NewWorlds), NewPairs)
  {
    var l := Shapes(NewWorlds);
    assert l[0].objs[0][0].center.z == 0.0;
    assert l[1].objs[0][0].center.z == ZOffset;
    assert l[2].objs[0][0].center.z == ZOffset * 2.0;
  }

  /** Two heights within the 5 units in which `render_in_portal` still draws a portal. */
  predicate InReach(a: real, b: real) {
    AbsR(a - b) <= 5.0
  }

  /**
   * As written, the last call's second portal lies in the fat tunnel 14
   * units below its floor: not where a player stands, and never drawn to a
   * player whose eye is within 5 units of standing height there.
   */
  lemma NewStranded()
    ensures !OnFloor(Shapes(NewWorlds), NewPairsAsWritten[3].p2)
    ensures var floor := Shapes(NewWorlds)[1].objs[0][0].center.z;
      && NewPairsAsWritten[3].p2.world == 1 && NewPairsAsWritten[3].p2.pos.z < floor
      && forall z: real :: InReach(z, floor + 1.0) ==> !InReach(NewPairsAsWritten[3].p2.pos.z, z)
  {
    assert Shapes(NewWorlds)[1].objs[0][0].center.z == ZOffset;
  }
}

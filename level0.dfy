/**
 * `MagicLevel::level0` of `src/state/real_view/level0.rs`: five worlds (the
 * normal level with its tunnel walls, the fat tunnel, the long tunnel and
 * the long and short insides) joined to the normal level by eight portal
 * pairs.
 */
module Level0 {
  import opened Vec
  import opened Wrappers
  import opened Portals
  import opened Levels
  import opened Magic
  import opened Builder

  /** A plane whose texture starts half a tile across, as several walls of these worlds do. */
  function Shifted(center: V3, r: real, texDelta: real, up: V3, right: V3): PlaneObject {
    PlaneObject(center, r, (0.5, 0.0), texDelta, up, right)
  }

  /** What the worlds other than the normal level and the fat tunnel look up: "gf" and "bf". */
  const GroundAndBlock: set<string> := {"gf", "bf"}

  /** `normal_level`: the ground, the blocks of the normal level and the walls of three tunnels. */
  const Ground0: seq<PlaneObject> := [Plane(Zero, 10.0, 5.0, UnitZ, UnitX)]
  const Blocks0: seq<PlaneObject> := [
    Plane(V3(0.0, 1.0, 1.0), 1.0, 0.5, UnitY, UnitX),
    Plane(V3(0.0, -1.0, 1.0), 1.0, 0.5, Neg(UnitY), UnitX),
    Plane(V3(0.0, 0.0, 2.0), 1.0, 0.5, UnitZ, UnitX),
    Plane(V3(4.0, 2.0, 1.0), 1.0, 0.5, UnitY, UnitX),
    Plane(V3(4.0, 0.0, 1.0), 1.0, 0.5, Neg(UnitY), UnitX),
    Plane(V3(0.0, 5.0, 1.0), 1.0, 0.5, UnitY, UnitX),
    Plane(V3(0.0, 3.0, 1.0), 1.0, 0.5, Neg(UnitY), UnitX),
    Plane(V3(0.0, 8.0, -3.0), 5.0, 2.5, UnitY, UnitX),
    Plane(V3(0.0, 6.0, -3.0), 5.0, 2.5, Neg(UnitY), UnitX)]

  /** `fat_tunnel`: one floor down, a wider ground than the fat tunnel of `MagicLevel::new`. */
  const Ground1: seq<PlaneObject> := [Plane(V3(0.0, 0.0, ZOffset), 20.0, 20.0, UnitZ, UnitX)]
  const Blocks1: seq<PlaneObject> := [
    Plane(V3(0.0, 5.0, 5.0 + ZOffset), 5.0, 2.5, UnitY, UnitX),
    Shifted(V3(0.0, -5.0, 5.0 + ZOffset), 5.0, 2.5, UnitY, UnitX),
    Shifted(V3(0.0, 0.0, 10.0 + ZOffset), 5.0, 2.5, Neg(UnitZ), UnitX)]

  /** `long_tunnel`: two floors down. */
  const Ground2: seq<PlaneObject> := [Plane(V3(0.0, 0.0, ZOffset * 2.0), 10.0, 25.0, UnitZ, UnitX)]
  const Blocks2: seq<PlaneObject> := [
    Plane(V3(0.0, 1.0, 5.0 + ZOffset * 2.0), 5.0, 2.5, UnitY, UnitX),
    Shifted(V3(0.0, -1.0, 5.0 + ZOffset * 2.0), 5.0, 2.5, UnitY, UnitX),
    Shifted(V3(0.0, 0.0, 2.0 + ZOffset * 2.0), 5.0, 2.5, Neg(UnitZ), UnitX)]

  /** `long_inside`: ten floors down. */
  const Ground3: seq<PlaneObject> := [Plane(V3(0.0, 0.0, ZOffset * 10.0), 5.0, 2.5, UnitZ, UnitX)]
  const Blocks3: seq<PlaneObject> := [
    Plane(V3(0.0, 1.0, 5.0 + ZOffset * 10.0), 5.0, 2.5, UnitY, UnitX),
    Shifted(V3(0.0, -1.0, 5.0 + ZOffset * 10.0), 5.0, 2.5, UnitY, UnitX),
    Shifted(V3(0.0, 0.0, 2.0 + ZOffset * 10.0), 5.0, 2.5, Neg(UnitZ), UnitX)]

  /** `short_inside`: fifteen floors down. */
  const Ground4: seq<PlaneObject> := [Shifted(V3(0.0, 0.0, ZOffset * 15.0), 1.0, 0.5, UnitZ, UnitX)]
  const Blocks4: seq<PlaneObject> := [
    Plane(V3(0.0, 1.0, 1.0 + ZOffset * 15.0), 1.0, 0.5, UnitY, UnitX),
    Shifted(V3(0.0, -1.0, 1.0 + ZOffset * 15.0), 1.0, 0.5, UnitY, UnitX),
    Shifted(V3(0.0, 0.0, 2.0 + ZOffset * 15.0), 1.0, 0.5, Neg(UnitZ), UnitX)]

  /** The five worlds of `MagicLevel::level0`, in the order they are pushed. */
  const Worlds0: seq<WorldSpec> := [
    WorldSpec(AllThree, [Ground0, Blocks0]),
    WorldSpec(AllThree, [Ground1, Blocks1]),
    WorldSpec(GroundAndBlock, [Ground2, Blocks2]),
    WorldSpec(GroundAndBlock, [Ground3, Blocks3]),
    WorldSpec(GroundAndBlock, [Ground4, Blocks4])]

  /** A pair of the level that joins at scale 1 with the radii and texture steps (1, 0.5) on both sides. */
  function Even(p1: PortalPos, p2: PortalPos): PairSpec {
    PairSpec(p1, p2, 1.0, 0.5, 1.0, 0.5, 1.0)
  }

  /**
   * The eight `add_portal` calls of `MagicLevel::level0`, as written: the
   * third one, meant for the long tunnel, puts its second portal in world 1
   * (the fat tunnel) at the height of the long tunnel's floor.
   */
  const Level0PairsAsWritten: seq<PairSpec> := [
    PairSpec(Wall(0, V3(1.0, 0.0, 1.0), UnitX, 1.0), Wall(1, V3(5.0, 0.0, 1.0 + ZOffset), Neg(UnitX), 5.0), 1.0, 0.5, 5.0, 2.5, 5.0),
    PairSpec(Wall(0, V3(-1.0, 0.0, 1.0), Neg(UnitX), 1.0), Wall(1, V3(-5.0, 0.0, 1.0 + ZOffset), UnitX, 5.0), 1.0, 0.5, 5.0, 2.5, 5.0),
    Even(Wall(0, V3(5.0, 1.0, 1.0), UnitX, 1.0), Wall(1, V3(5.0, 0.0, 1.0 + ZOffset * 2.0), Neg(UnitX), 1.0)),
    Even(Wall(0, V3(3.0, 1.0, 1.0), Neg(UnitX), 1.0), Wall(2, V3(-5.0, 0.0, 1.0 + ZOffset * 2.0), UnitX, 5.0)),
    Even(Wall(0, V3(-1.0, 4.0, 1.0), Neg(UnitX), 1.0), Wall(3, V3(-5.0, 0.0, 1.0 + ZOffset * 10.0), UnitX, 5.0)),
    Even(Wall(0, V3(1.0, 4.0, 1.0), UnitX, 1.0), Wall(3, V3(5.0, 0.0, 1.0 + ZOffset * 10.0), Neg(UnitX), 5.0)),
    Even(Wall(0, V3(-5.0, 7.0, 1.0), Neg(UnitX), 1.0), Wall(4, V3(-1.0, 0.0, 1.0 + ZOffset * 15.0), UnitX, 5.0)),
    Even(Wall(0, V3(5.0, 7.0, 1.0), UnitX, 1.0), Wall(4, V3(1.0, 0.0, 1.0 + ZOffset * 15.0), Neg(UnitX), 5.0))]

  /** The calls of `MagicLevel::level0` with the third one's second portal in the long tunnel (world 2), where its height belongs. */
  const Level0Pairs: seq<PairSpec> := Level0PairsAsWritten[2 := Level0PairsAsWritten[2].(p2 := Level0PairsAsWritten[2].p2.(world := 2))]

  /** `MagicLevel::level0` succeeds exactly when "gf", "bf" and "pf" are all loaded. */
  lemma Level0Needs(textures: set<string>)
    ensures Loaded(textures, Worlds0) <==> AllThree <= textures
  {
    if AllThree <= textures {
      forall k | 0 <= k < |Worlds0| ensures Worlds0[k].needed <= textures { }
    } else {
      assert Worlds0[0].needed == AllThree;
    }
  }

  /** The worlds the corrected calls join: the normal level to each of the four others, twice. */
  lemma Level0Joins()
    ensures Fits(5, Level0Pairs)
    ensures WorldsOf(Level0Pairs) == [(0, 1), (0, 1), (0, 2), (0, 2), (0, 3), (0, 3), (0, 4), (0, 4)]
    ensures var w := WorldsOf(Level0Pairs);
      && Tally(w, 8, 0) == 8 && Tally(w, 8, 1) == 2 && Tally(w, 8, 2) == 2 && Tally(w, 8, 3) == 2 && Tally(w, 8, 4) == 2
  {
    Level0Tallies();
  }

  /** The normal level is an end of all eight joins, each other world of two. */
  lemma Level0Tallies()
    ensures var w := [(0, 1), (0, 1), (0, 2), (0, 2), (0, 3), (0, 3), (0, 4), (0, 4)];
      && Tally(w, 8, 0) == 8 && Tally(w, 8, 1) == 2 && Tally(w, 8, 2) == 2 && Tally(w, 8, 3) == 2 && Tally(w, 8, 4) == 2
  {
    var w := [(0, 1), (0, 1), (0, 2), (0, 2), (0, 3), (0, 3), (0, 4), (0, 4)];
    assert Tally(w, 8, 0) == 8;
    assert Tally(w, 8, 1) == 2;
    assert Tally(w, 8, 2) == 2;
    assert Tally(w, 8, 3) == 2;
    assert Tally(w, 8, 4) == 2;
  }

  /** As written, the fat tunnel receives three portals and the long tunnel only one. */
  lemma Level0JoinsAsWritten()
    ensures Fits(5, Level0PairsAsWritten)
    ensures WorldsOf(Level0PairsAsWritten) == [(0, 1), (0, 1), (0, 1), (0, 2), (0, 3), (0, 3), (0, 4), (0, 4)]
    ensures var w := WorldsOf(Level0PairsAsWritten);
      && Tally(w, 8, 0) == 8 && Tally(w, 8, 1) == 3 && Tally(w, 8, 2) == 1 && Tally(w, 8, 3) == 2 && Tally(w, 8, 4) == 2
  {
    var w := [(0, 1), (0, 1), (0, 1), (0, 2), (0, 3), (0, 3), (0, 4), (0, 4)];
    assert Tally(w, 8, 0) == 8;
    assert Tally(w, 8, 1) == 3;
    assert Tally(w, 8, 2) == 1;
    assert Tally(w, 8, 3) == 2;
    assert Tally(w, 8, 4) == 2;
  }

  /**
   * `MagicLevel::level0`: fails with "NO TEXTURE" unless "gf", "bf" and
   * "pf" are loaded; otherwise the five worlds in order, the player at
   * (-3, 3, 1) in world 0, five views of the surface's size and the eight
   * portal pairs as written, the third one ending in the fat tunnel.
   */
  method Level0(textures: set<string>, surface: (nat, nat)) returns (r: Result<MagicLevel, string>)
    ensures r.Ok? <==> AllThree <= textures
    ensures r.Err? ==> r.error == NoTexture
    ensures r.Ok? ==> fresh(r.value) && r.value.Valid() && r.value.meWorld < |r.value.levels|
    ensures r.Ok? ==> r.value.meWorld == 0 && r.value.portalViews == seq(5, _ => surface)
    ensures r.Ok? ==> Arena(r.value.levels, r.value.p, r.value.portalsMap) == AddAll(StartArena(Worlds0), Level0PairsAsWritten)
  {
    Level0Needs(textures);
    Level0JoinsAsWritten();
    r := Assemble(textures, surface, Worlds0, 5, Level0PairsAsWritten);
  }

  /** `MagicLevel::level0` with its third pair ending in the long tunnel, as its comment and height say it should. */
  method Level0Corrected(textures: set<string>, surface: (nat, nat)) returns (r: Result<MagicLevel, string>)
    ensures r.Ok? <==> AllThree <= textures
    ensures r.Err? ==> r.error == NoTexture
    ensures r.Ok? ==> fresh(r.value) && r.value.Valid() && r.value.meWorld < |r.value.levels|
    ensures r.Ok? ==> r.value.meWorld == 0 && r.value.portalViews == seq(5, _ => surface)
    ensures r.Ok? ==> Arena(r.value.levels, r.value.p, r.value.portalsMap) == AddAll(StartArena(Worlds0), Level0Pairs)
  {
    Level0Needs(textures);
    Level0Joins();
    r := Assemble(textures, surface, Worlds0, 5, Level0Pairs);
  }

  /**
   * After `MagicLevel::level0`, as written, the normal level holds eight
   * portals, the fat tunnel three, the long tunnel one and the last two
   * worlds two each, whatever their planes.
   */
  lemma Level0Counts(ws: seq<WorldSpec>)
    requires |ws| == 5
    ensures Fits(|ws|, Level0PairsAsWritten)
    ensures var r := AddAll(StartArena(ws), Level0PairsAsWritten);
      && |r.levels| == 5 && |r.levels[0].portals| == 8 && |r.levels[1].portals| == 3
      && |r.levels[2].portals| == 1 && |r.levels[3].portals| == 2 && |r.levels[4].portals| == 2
  {
    Level0JoinsAsWritten();
    Counted(ws, Level0PairsAsWritten);
  }

  /** Where the eight calls of `MagicLevel::level0` put their portals: the third one's second portal is the fat tunnel's third. */
  lemma Level0Slots()
    ensures var w := [(0, 1), (0, 1), (0, 1), (0, 2), (0, 3), (0, 3), (0, 4), (0, 4)];
      && Slots(w, 0) == ((0, 0), (1, 0)) && Slots(w, 1) == ((0, 1), (1, 1))
      && Slots(w, 2) == ((0, 2), (1, 2)) && Slots(w, 3) == ((0, 3), (2, 0))
      && Slots(w, 4) == ((0, 4), (3, 0)) && Slots(w, 5) == ((0, 5), (3, 1))
      && Slots(w, 6) == ((0, 6), (4, 0)) && Slots(w, 7) == ((0, 7), (4, 1))
  {
  }

  /** Where the corrected calls put their portals. */
  lemma Level0SlotsCorrected()
    ensures var w := [(0, 1), (0, 1), (0, 2), (0, 2), (0, 3), (0, 3), (0, 4), (0, 4)];
      && Slots(w, 0) == ((0, 0), (1, 0)) && Slots(w, 1) == ((0, 1), (1, 1))
      && Slots(w, 2) == ((0, 2), (2, 0)) && Slots(w, 3) == ((0, 3), (2, 1))
      && Slots(w, 4) == ((0, 4), (3, 0)) && Slots(w, 5) == ((0, 5), (3, 1))
      && Slots(w, 6) == ((0, 6), (4, 0)) && Slots(w, 7) == ((0, 7), (4, 1))
  {
  }

  /** Any eight calls joining the worlds as `MagicLevel::level0` does as written, with its scales, link these portals. */
  lemma WrittenGraph0(ws: seq<WorldSpec>, pairs: seq<PairSpec>)
    requires |ws| == 5 && Fits(5, pairs) && WorldsOf(pairs) == [(0, 1), (0, 1), (0, 1), (0, 2), (0, 3), (0, 3), (0, 4), (0, 4)]
    requires pairs[0].scale == 5.0 && pairs[1].scale == 5.0
    requires pairs[2].scale == 1.0 && pairs[3].scale == 1.0 && pairs[4].scale == 1.0
    requires pairs[5].scale == 1.0 && pairs[6].scale == 1.0 && pairs[7].scale == 1.0
    ensures var l := AddAll(StartArena(ws), pairs).levels;
      && |l| == 5 && |l[0].portals| >= 8
      && |l[1].portals| >= 3 && |l[2].portals| >= 1 && |l[3].portals| >= 2 && |l[4].portals| >= 2
      && l[0].portals[0].connecting == (1, 0) && l[1].portals[0].connecting == (0, 0)
      && l[0].portals[1].connecting == (1, 1) && l[1].portals[1].connecting == (0, 1)
      && l[0].portals[2].connecting == (1, 2) && l[1].portals[2].connecting == (0, 2)
      && l[0].portals[3].connecting == (2, 0) && l[2].portals[0].connecting == (0, 3)
      && l[0].portals[4].connecting == (3, 0) && l[3].portals[0].connecting == (0, 4)
      && l[0].portals[5].connecting == (3, 1) && l[3].portals[1].connecting == (0, 5)
      && l[0].portals[6].connecting == (4, 0) && l[4].portals[0].connecting == (0, 6)
      && l[0].portals[7].connecting == (4, 1) && l[4].portals[1].connecting == (0, 7)
      && l[0].portals[0].scale == 5.0 && l[1].portals[0].scale == 1.0 / 5.0
      && l[0].portals[1].scale == 5.0 && l[1].portals[1].scale == 1.0 / 5.0
      && l[0].portals[2].scale == 1.0 && l[1].portals[2].scale == 1.0
      && l[0].portals[3].scale == 1.0 && l[2].portals[0].scale == 1.0
      && l[0].portals[4].scale == 1.0 && l[3].portals[0].scale == 1.0
      && l[0].portals[5].scale == 1.0 && l[3].portals[1].scale == 1.0
      && l[0].portals[6].scale == 1.0 && l[4].portals[0].scale == 1.0
      && l[0].portals[7].scale == 1.0 && l[4].portals[1].scale == 1.0
  {
    Level0Slots();
    PairPlaced(ws, pairs, 0);
    PairPlaced(ws, pairs, 1);
    PairPlaced(ws, pairs, 2);
    PairPlaced(ws, pairs, 3);
    PairPlaced(ws, pairs, 4);
    PairPlaced(ws, pairs, 5);
    PairPlaced(ws, pairs, 6);
    PairPlaced(ws, pairs, 7);
  }

  /**
   * The portal graph of `MagicLevel::level0` as written: the normal level's
   * portal `i` leads to the `i`-th portal the calls put in the other world
   * and back (the fat tunnel's 0, 1 and 2, the long tunnel's 0, then
   * portals 0 and 1 of worlds 3 and 4); the first two pairs magnify by 5,
   * every other pair has scale 1.
   */
  predicate Level0WrittenShape(l: seq<Level>) {
    && |l| == 5 && |l[0].portals| >= 8
    && |l[1].portals| >= 3 && |l[2].portals| >= 1 && |l[3].portals| >= 2 && |l[4].portals| >= 2
    && l[0].portals[0].connecting == (1, 0) && l[1].portals[0].connecting == (0, 0)
    && l[0].portals[1].connecting == (1, 1) && l[1].portals[1].connecting == (0, 1)
    && l[0].portals[2].connecting == (1, 2) && l[1].portals[2].connecting == (0, 2)
    && l[0].portals[3].connecting == (2, 0) && l[2].portals[0].connecting == (0, 3)
    && l[0].portals[4].connecting == (3, 0) && l[3].portals[0].connecting == (0, 4)
    && l[0].portals[5].connecting == (3, 1) && l[3].portals[1].connecting == (0, 5)
    && l[0].portals[6].connecting == (4, 0) && l[4].portals[0].connecting == (0, 6)
    && l[0].portals[7].connecting == (4, 1) && l[4].portals[1].connecting == (0, 7)
    && l[0].portals[0].scale == 5.0 && l[1].portals[0].scale == 1.0 / 5.0
    && l[0].portals[1].scale == 5.0 && l[1].portals[1].scale == 1.0 / 5.0
    && l[0].portals[2].scale == 1.0 && l[1].portals[2].scale == 1.0
    && l[0].portals[3].scale == 1.0 && l[2].portals[0].scale == 1.0
    && l[0].portals[4].scale == 1.0 && l[3].portals[0].scale == 1.0
    && l[0].portals[5].scale == 1.0 && l[3].portals[1].scale == 1.0
    && l[0].portals[6].scale == 1.0 && l[4].portals[0].scale == 1.0
    && l[0].portals[7].scale == 1.0 && l[4].portals[1].scale == 1.0
  }

  /** `MagicLevel::level0` builds the as-written graph, whatever planes the five worlds have. */
  lemma Level0Graph(ws: seq<WorldSpec>)
    requires |ws| == 5
    ensures Fits(|ws|, Level0PairsAsWritten) && Level0WrittenShape(AddAll(StartArena(ws), Level0PairsAsWritten).levels)
  {
    Level0JoinsAsWritten();
    WrittenGraph0(ws, Level0PairsAsWritten);
  }

  /** Any eight calls joining the worlds as the corrected table does, with its scales, link these portals. */
  lemma CorrectedGraph0(ws: seq<WorldSpec>, pairs: seq<PairSpec>)
    requires |ws| == 5 && Fits(5, pairs) && WorldsOf(pairs) == [(0, 1), (0, 1), (0, 2), (0, 2), (0, 3), (0, 3), (0, 4), (0, 4)]
    requires pairs[0].scale == 5.0 && pairs[1].scale == 5.0
    requires pairs[2].scale == 1.0 && pairs[3].scale == 1.0 && pairs[4].scale == 1.0
    requires pairs[5].scale == 1.0 && pairs[6].scale == 1.0 && pairs[7].scale == 1.0
    ensures var l := AddAll(StartArena(ws), pairs).levels;
      && |l| == 5 && |l[0].portals| >= 8
      && |l[1].portals| >= 2 && |l[2].portals| >= 2 && |l[3].portals| >= 2 && |l[4].portals| >= 2
      && l[0].portals[0].connecting == (1, 0) && l[1].portals[0].connecting == (0, 0)
      && l[0].portals[1].connecting == (1, 1) && l[1].portals[1].connecting == (0, 1)
      && l[0].portals[2].connecting == (2, 0) && l[2].portals[0].connecting == (0, 2)
      && l[0].portals[3].connecting == (2, 1) && l[2].portals[1].connecting == (0, 3)
      && l[0].portals[4].connecting == (3, 0) && l[3].portals[0].connecting == (0, 4)
      && l[0].portals[5].connecting == (3, 1) && l[3].portals[1].connecting == (0, 5)
      && l[0].portals[6].connecting == (4, 0) && l[4].portals[0].connecting == (0, 6)
      && l[0].portals[7].connecting == (4, 1) && l[4].portals[1].connecting == (0, 7)
      && l[0].portals[0].scale == 5.0 && l[1].portals[0].scale == 1.0 / 5.0
      && l[0].portals[1].scale == 5.0 && l[1].portals[1].scale == 1.0 / 5.0
      && l[0].portals[2].scale == 1.0 && l[2].portals[0].scale == 1.0
      && l[0].portals[3].scale == 1.0 && l[2].portals[1].scale == 1.0
      && l[0].portals[4].scale == 1.0 && l[3].portals[0].scale == 1.0
      && l[0].portals[5].scale == 1.0 && l[3].portals[1].scale == 1.0
      && l[0].portals[6].scale == 1.0 && l[4].portals[0].scale == 1.0
      && l[0].portals[7].scale == 1.0 && l[4].portals[1].scale == 1.0
  {
    Level0SlotsCorrected();
    PairPlaced(ws, pairs, 0);
    PairPlaced(ws, pairs, 1);
    PairPlaced(ws, pairs, 2);
    PairPlaced(ws, pairs, 3);
    PairPlaced(ws, pairs, 4);
    PairPlaced(ws, pairs, 5);
    PairPlaced(ws, pairs, 6);
    PairPlaced(ws, pairs, 7);
  }

  /**
   * The corrected portal graph: the normal level's portals 2v - 2 and
   * 2v - 1 lead to portals 0 and 1 of world v and back; the first two
   * pairs magnify by 5, every other pair has scale 1.
   */
  predicate Level0Shape(l: seq<Level>) {
    && |l| == 5 && |l[0].portals| >= 8
    && |l[1].portals| >= 2 && |l[2].portals| >= 2 && |l[3].portals| >= 2 && |l[4].portals| >= 2
    && l[0].portals[0].connecting == (1, 0) && l[1].portals[0].connecting == (0, 0)
    && l[0].portals[1].connecting == (1, 1) && l[1].portals[1].connecting == (0, 1)
    && l[0].portals[2].connecting == (2, 0) && l[2].portals[0].connecting == (0, 2)
    && l[0].portals[3].connecting == (2, 1) && l[2].portals[1].connecting == (0, 3)
    && l[0].portals[4].connecting == (3, 0) && l[3].portals[0].connecting == (0, 4)
    && l[0].portals[5].connecting == (3, 1) && l[3].portals[1].connecting == (0, 5)
    && l[0].portals[6].connecting == (4, 0) && l[4].portals[0].connecting == (0, 6)
    && l[0].portals[7].connecting == (4, 1) && l[4].portals[1].connecting == (0, 7)
    && l[0].portals[0].scale == 5.0 && l[1].portals[0].scale == 1.0 / 5.0
    && l[0].portals[1].scale == 5.0 && l[1].portals[1].scale == 1.0 / 5.0
    && l[0].portals[2].scale == 1.0 && l[2].portals[0].scale == 1.0
    && l[0].portals[3].scale == 1.0 && l[2].portals[1].scale == 1.0
    && l[0].portals[4].scale == 1.0 && l[3].portals[0].scale == 1.0
    && l[0].portals[5].scale == 1.0 && l[3].portals[1].scale == 1.0
    && l[0].portals[6].scale == 1.0 && l[4].portals[0].scale == 1.0
    && l[0].portals[7].scale == 1.0 && l[4].portals[1].scale == 1.0
  }

  /** The corrected calls build the corrected graph, whatever planes the five worlds have. */
  lemma Level0Links(ws: seq<WorldSpec>)
    requires |ws| == 5
    ensures Fits(|ws|, Level0Pairs) && Level0Shape(AddAll(StartArena(ws), Level0Pairs).levels)
  {
    Level0Joins();
    CorrectedGraph0(ws, Level0Pairs);
  }

  /** Every portal of the corrected calls stands one unit above the floor of its world, as the player does. */
  lemma Level0Grounded()
    ensures Grounded(Shapes(Worlds0), Level0Pairs)
  {
    var l := Shapes(Worlds0);
    assert l[0].objs[0][0].center.z == 0.0;
    assert l[1].objs[0][0].center.z == ZOffset;
    assert l[2].objs[0][0].center.z == ZOffset * 2.0;
    assert l[3].objs[0][0].center.z == ZOffset * 10.0;
    assert l[4].objs[0][0].center.z == ZOffset * 15.0;
  }

  /**
   * As written, the third call's second portal lies in the fat tunnel 14
   * units below its floor, out of the 5-unit reach in which portals are
   * drawn from anywhere a player there can stand.
   */
  lemma Level0Stranded()
    ensures !OnFloor(Shapes(Worlds0), Level0PairsAsWritten[2].p2)
    ensures var floor := Shapes(Worlds0)[1].objs[0][0].center.z;
      && Level0PairsAsWritten[2].p2.world == 1 && Level0PairsAsWritten[2].p2.pos.z < floor
      && forall z: real :: InReach(z, floor + 1.0) ==> !InReach(Level0PairsAsWritten[2].p2.pos.z, z)
  {
    assert Shapes(Worlds0)[1].objs[0][0].center.z == ZOffset;
  }
}

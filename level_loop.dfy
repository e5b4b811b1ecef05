/**
 * `MagicLevel::level_loop` of `src/state/real_view/level_loop.rs`: one
 * room whose two facing walls are a single portal pair, so that walking
 * through one brings the player back in through the other.
 */
module LevelLoop {
  import opened Vec
  import opened Wrappers
  import opened Portals
  import opened Levels
  import opened Magic
  import opened Builder

  /** `get_color_level` of the loop: a floor at height `zo` and two side walls, all in the texture `color`. */
  function LoopRoom(color: string, zo: real): WorldSpec {
    WorldSpec({color}, [[
      Plane(V3(0.0, 0.0, zo), 5.0, 2.5, UnitZ, UnitX),
      Plane(V3(0.0, 5.0, 5.0 + zo), 5.0, 2.5, Neg(UnitY), UnitX),
      Plane(V3(0.0, -5.0, 5.0 + zo), 5.0, 2.5, UnitY, UnitX)]])
  }

  /** The single world of the loop: the "gf" room on the ground. */
  const LoopWorlds: seq<WorldSpec> := [LoopRoom("gf", 0.0)]

  /** The one `add_portal` call: the room's +x end leads to its -x end, at scale 1. */
  const LoopPairs: seq<PairSpec> := [
    PairSpec(Wall(0, V3(5.0, 0.0, 1.0), Neg(UnitX), 10.0), Wall(0, V3(-5.0, 0.0, 1.0), UnitX, 10.0), 10.0, 5.0, 10.0, 5.0, 1.0)]

  /**
   * `MagicLevel::level_loop`: fails with "NO TEXTURE" unless "gf" is
   * loaded; otherwise the room, the player at (-3, 3, 1) in it, ten views
   * of the surface's size and the one portal pair.
   */
  method LevelLoop(textures: set<string>, surface: (nat, nat)) returns (r: Result<MagicLevel, string>)
    ensures r.Ok? <==> "gf" in textures
    ensures r.Err? ==> r.error == NoTexture
    ensures r.Ok? ==> fresh(r.value) && r.value.Valid()
    ensures r.Ok? ==> r.value.meWorld == 0 && r.value.portalViews == seq(10, _ => surface)
    ensures r.Ok? ==> Arena(r.value.levels, r.value.p, r.value.portalsMap) == AddAll(StartArena(LoopWorlds), LoopPairs)
  {
    assert Loaded(textures, LoopWorlds) <==> "gf" in textures by {
      assert LoopWorlds[0].needed == {"gf"};
    }
    assert Fits(1, LoopPairs);
    r := Assemble(textures, surface, LoopWorlds, 10, LoopPairs);
  }

  /**
   * A single call joining a one-world table to itself at scale 1 leaves
   * exactly two portals there, 0 and 1, leading to each other.
   */
  lemma SelfJoined(ws: seq<WorldSpec>, pairs: seq<PairSpec>)
    requires |ws| == 1 && Fits(1, pairs) && WorldsOf(pairs) == [(0, 0)] && pairs[0].scale == 1.0
    ensures var l := AddAll(StartArena(ws), pairs).levels;
      && |l| == 1 && |l[0].portals| == 2
      && l[0].portals[0].connecting == (0, 1) && l[0].portals[1].connecting == (0, 0)
      && l[0].portals[0].scale == 1.0 && l[0].portals[1].scale == 1.0
  {
    assert Slots([(0, 0)], 0) == ((0, 0), (0, 1));
    assert Tally([(0, 0)], 1, 0) == 2;
    Counted(ws, pairs);
    PairPlaced(ws, pairs, 0);
  }

  /** One world holding exactly two portals, 0 and 1, leading to each other at scale 1. */
  predicate SelfLoop(l: seq<Level>) {
    && |l| == 1 && |l[0].portals| == 2
    && l[0].portals[0].connecting == (0, 1) && l[0].portals[1].connecting == (0, 0)
    && l[0].portals[0].scale == 1.0 && l[0].portals[1].scale == 1.0
  }

  /** The loop's room holds exactly two portals, 0 and 1, leading to each other at scale 1, whatever its planes. */
  lemma LoopJoined(ws: seq<WorldSpec>)
    requires |ws| == 1
    ensures Fits(1, LoopPairs) && SelfLoop(AddAll(StartArena(ws), LoopPairs).levels)
  {
    assert Fits(1, LoopPairs) && WorldsOf(LoopPairs) == [(0, 0)];
    SelfJoined(ws, LoopPairs);
  }

  /** Both portals of the loop stand one unit above its floor, as the player does. */
  lemma LoopGrounded()
    ensures Grounded(Shapes(LoopWorlds), LoopPairs)
  {
    assert Shapes(LoopWorlds)[0].objs[0][0].center.z == 0.0;
  }
}

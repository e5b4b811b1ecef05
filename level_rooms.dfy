/**
 * `MagicLevel::level_rooms` of `src/state/real_view/level_rooms.rs`: up to
 * nine rooms, one per floor-texture colour in a shuffled order, each 20
 * units above the previous one, joined into a ring: a portal in room `i`
 * leads to room `i + 1`, and the last room's leads back to the first.
 */
module LevelRooms {
  import opened Vec
  import opened Wrappers
  import opened Portals
  import opened Levels
  import opened Magic
  import opened Builder

  /** The nine floor colours `level_rooms` shuffles. */
  const Colors: seq<string> := ["bf", "gf", "pf", "rf", "af", "yf", "gray_f", "pink_f", "black_f"]

  /** What indexing the colour list past its end does: the build panics. */
  const IndexPanic: string := "index out of bounds"

  /** `get_color_level` of the rooms: a floor and a ceiling at height `zo`, and two walls, in the texture `color`. */
  function Room(color: string, zo: real): (w: WorldSpec)
    ensures w.needed == {color} && |w.groups| == 1 && |w.groups[0]| == 4 && w.groups[0][0].center.z == zo
  {
    WorldSpec({color}, [[
      Plane(V3(0.0, 0.0, zo), 5.0, 2.5, UnitZ, UnitX),
      Plane(V3(0.0, 0.0, 5.0 + zo), 5.0, 2.5, Neg(UnitZ), UnitX),
      Plane(V3(5.0, 0.0, 5.0 + zo), 5.0, 2.5, Neg(UnitX), UnitY),
      Plane(V3(0.0, 5.0, 5.0 + zo), 5.0, 2.5, Neg(UnitY), UnitX)]])
  }

  /** The first `n` rooms, room `i` in colour `order[i]` at height `20 i`. */
  function RoomWorlds(order: seq<string>, n: nat): (r: seq<WorldSpec>)
    requires n <= |order|
    ensures |r| == n
    ensures forall i :: 0 <= i < n ==> r[i] == Room(order[i], 20.0 * i as real)
  {
    seq(n, i requires 0 <= i < n => Room(order[i], 0.0 + i as real * 20.0))
  }

  /** The room after room `i` of `n`: `(i + 1) % n`, written without the remainder. */
  function Next(i: nat, n: nat): (j: nat)
    requires i < n
    ensures j < n && j == (i + 1) % n
  {
    if i + 1 < n then i + 1 else 0
  }

  /**
   * The `add_portal` calls of `level_rooms`: call `i` puts a portal on the
   * -y wall of room `i` and its partner on the -x wall of room
   * `(i + 1) % n`, at scale 1.
   */
  function RoomPairs(n: nat): (r: seq<PairSpec>)
    ensures |r| == n && Fits(n, r)
    ensures forall i :: 0 <= i < n ==> r[i].p1.world == i && r[i].p2.world == Next(i, n) && r[i].scale == 1.0
  {
    seq(n, i requires 0 <= i < n =>
      PairSpec(
        Wall(i, V3(0.0, -5.0, 1.0 + 20.0 * i as real), UnitY, 10.0),
        Wall(Next(i, n), V3(-5.0, 0.0, 1.0 + 20.0 * Next(i, n) as real), UnitX, 10.0),
        10.0, 5.0, 10.0, 5.0, 1.0))
  }

  /** The rooms of a build find their textures exactly when every colour in use is loaded. */
  lemma RoomsLoaded(textures: set<string>, order: seq<string>, n: nat)
    requires n <= |order|
    ensures Loaded(textures, RoomWorlds(order, n)) <==> forall i :: 0 <= i < n ==> order[i] in textures
  {
    var ws := RoomWorlds(order, n);
    if forall i :: 0 <= i < n ==> order[i] in textures {
      forall k | 0 <= k < n ensures ws[k].needed <= textures { }
    } else {
      var i :| 0 <= i < n && order[i] !in textures;
      assert ws[i].needed == {order[i]};
    }
  }

  /**
   * `MagicLevel::level_rooms` with `order` the shuffled colours: the rooms
   * are built in order and the first whose colour is not loaded aborts
   * with "NO TEXTURE"; asking for more than nine rooms, once all nine are
   * built, indexes the colour list past its end. Otherwise the rooms, the
   * player at (-3, 3, 1) in room 0, five views of the surface's size and
   * the ring of portal pairs.
   */
  method LevelRooms(textures: set<string>, surface: (nat, nat), roomCnt: nat, order: seq<string>)
    returns (r: Result<MagicLevel, string>)
    requires multiset(order) == multiset(Colors)
    ensures r.Ok? <==> roomCnt <= |Colors| && forall i :: 0 <= i < roomCnt ==> order[i] in textures
    ensures r.Err? ==> (r.error == NoTexture <==> exists i :: 0 <= i < roomCnt && i < |order| && order[i] !in textures)
    ensures r.Err? ==> (r.error == IndexPanic <==> |Colors| < roomCnt && forall i :: 0 <= i < |order| ==> order[i] in textures)
    ensures r.Ok? ==> fresh(r.value) && r.value.Valid()
    ensures r.Ok? ==> r.value.meWorld == 0 && r.value.portalViews == seq(5, _ => surface)
    ensures r.Ok? ==> Arena(r.value.levels, r.value.p, r.value.portalsMap) == AddAll(StartArena(RoomWorlds(order, roomCnt)), RoomPairs(roomCnt))
  {
    assert |order| == |multiset(order)| == |Colors|;
    var shown := if roomCnt <= |order| then roomCnt else |order|;
    var ws := RoomWorlds(order, shown);
    RoomsLoaded(textures, order, shown);
    if roomCnt > |order| {
      var built := BuildWorlds(textures, ws);
      if built.Err? {
        return Err(NoTexture);
      }
      return Err(IndexPanic);
    }
    r := Assemble(textures, surface, ws, 5, RoomPairs(roomCnt));
  }

  /** With all nine colours loaded, the build succeeds whatever the shuffle, exactly for up to nine rooms. */
  lemma ShuffleFree(textures: set<string>, order: seq<string>, n: nat)
    requires multiset(order) == multiset(Colors)
    requires forall c :: c in Colors ==> c in textures
    ensures |order| == |Colors|
    ensures n <= |Colors| ==> forall i :: 0 <= i < n ==> order[i] in textures
  {
    assert |order| == |multiset(order)| == |Colors|;
    forall i | 0 <= i < |order| ensures order[i] in textures {
      assert order[i] in multiset(order);
    }
  }

  /** The worlds of the ring: call `i` joins room `i` to the next room. */
  function Ring(n: nat): (w: seq<(nat, nat)>)
    ensures |w| == n && forall i :: 0 <= i < n ==> w[i] == (i, Next(i, n))
  {
    seq(n, i requires 0 <= i < n => (i, Next(i, n)))
  }

  /**
   * Among the first `k` calls of the ring, room `v` receives its own
   * portal once `v < k`, and the portal of call `v - 1` (of the last call,
   * for room 0) once that call is among them.
   */
  lemma {:induction false} RingTally(n: nat, k: nat, v: nat)
    requires k <= n && v < n
    ensures Tally(Ring(n), k, v)
      == (if v < k then 1 else 0) + (if (v == 0 && k == n) || (0 < v <= k) then 1 else 0)
    decreases k
  {
    if k > 0 {
      RingTally(n, k - 1, v);
      assert Ring(n)[k - 1] == (k - 1, Next(k - 1, n));
    }
  }

  /** Every room of the ring holds exactly two portals, whatever its planes. */
  lemma RoomCounts(ws: seq<WorldSpec>)
    requires 0 < |ws|
    ensures var r := AddAll(StartArena(ws), RoomPairs(|ws|));
      |r.levels| == |ws| && forall v :: 0 <= v < |ws| ==> |r.levels[v].portals| == 2
  {
    var n := |ws|;
    assert WorldsOf(RoomPairs(n)) == Ring(n);
    Counted(ws, RoomPairs(n));
    forall v | 0 <= v < n ensures Tally(Ring(n), n, v) == 2 {
      RingTally(n, n, v);
    }
  }

  /** The portal of room `i` that call `i` adds: the first of room 0, the second of every other room. */
  function Exit(i: nat): (nat, nat) {
    (i, if i == 0 then 0 else 1)
  }

  /** The portal of room `j` that the call from the room before adds: the second of room 0, the first of every other room. */
  function Entry(j: nat): (nat, nat) {
    (j, if j == 0 then 1 else 0)
  }

  /** In a ring of two or more rooms, call `i` fills the exit of room `i` and the entry of the next room. */
  lemma RingSlots(n: nat, i: nat)
    requires 2 <= n && i < n
    ensures Slots(Ring(n), i) == (Exit(i), Entry(Next(i, n)))
  {
    RingTally(n, i, i);
    RingTally(n, i, Next(i, n));
  }

  /**
   * In a ring of two or more rooms, the exit of every room leads to the
   * entry of the next and back, at scale 1: walking through exits visits
   * every room and returns to the first.
   */
  lemma RingLinks(ws: seq<WorldSpec>, i: nat)
    requires 2 <= |ws| && i < |ws|
    ensures Joins(AddAll(StartArena(ws), RoomPairs(|ws|)).levels, Exit(i), Entry(Next(i, |ws|)), 1.0)
  {
    var n := |ws|;
    assert WorldsOf(RoomPairs(n)) == Ring(n);
    RingSlots(n, i);
    PairPlaced(ws, RoomPairs(n), i);
  }

  /** The room reached from room 0 after walking through `k` exits. */
  function Walk(n: nat, k: nat): (j: nat)
    requires 0 < n
    ensures j < n
  {
    if k == 0 then 0 else Next(Walk(n, k - 1), n)
  }

  /** Walking through exits from room 0 visits the rooms in order and is back in room 0 after `n` steps. */
  lemma {:induction false} WalkVisits(n: nat, k: nat)
    requires 0 < n && k <= n
    ensures Walk(n, k) == if k < n then k else 0
  {
    if k > 0 {
      WalkVisits(n, k - 1);
    }
  }

  /** A single room's pair joins the room to itself: portals 0 and 1 lead to each other. */
  lemma SingleRoom(ws: seq<WorldSpec>)
    requires |ws| == 1
    ensures Joins(AddAll(StartArena(ws), RoomPairs(1)).levels, (0, 0), (0, 1), 1.0)
  {
    assert WorldsOf(RoomPairs(1)) == Ring(1);
    assert Slots(Ring(1), 0) == ((0, 0), (0, 1)) by {
      assert Ring(1)[0] == (0, 0);
    }
    PairPlaced(ws, RoomPairs(1), 0);
  }

  /** Every portal of the ring stands one unit above the floor of its room, as the player does. */
  lemma RoomsGrounded(order: seq<string>, n: nat)
    requires n <= |order|
    ensures Grounded(Shapes(RoomWorlds(order, n)), RoomPairs(n))
  {
    var l, pairs := Shapes(RoomWorlds(order, n)), RoomPairs(n);
    forall i | 0 <= i < n ensures OnFloor(l, pairs[i].p1) && OnFloor(l, pairs[i].p2) {
      var j := Next(i, n);
      assert l[i].objs[0][0].center.z == 20.0 * i as real;
      assert l[j].objs[0][0].center.z == 20.0 * j as real;
    }
  }
}

# maybe_portal, modelled in Dafny

maybe_portal is a small Rust game engine built on winit and wgpu. Its demo
state, `Test3DState`, shows a `MagicLevel`. That is a set of separate worlds
("levels") joined by pairs of portals. Walking into a portal's sensor
collider moves the player, the camera and the player's bounding box to the
linked portal in another world. Each frame, every visible portal is drawn by
rendering the linked world from a camera carried through the portal. The
recursion goes into a fixed pool of off-screen views.

This project models the core of that engine as Dafny and proves properties
of the model:

- **Worlds and portals** (`levels.dfy`, `portals.dfy`, `physics.dfy`).
  A world is its portals and its textured plane groups. Portals are added in
  linked pairs, each with a sensor collider. `Coord` carries a camera from
  one portal's frame to another's, and `will_see_face` is the visibility
  test. The physics world is reduced to its collider list and the player
  body's translation.
- **The level** (`magic.dfy`, `crossing.dfy`, `traversal.dfy`).
  `MagicLevel` is a class with the paired insertion and the per-tick
  crossing protocol of `update`. The recursive traversal of `render` and
  `render_in_portal` is modelled as the trace of render passes it records.
- **The level builders** (`builder.dfy`, `level0.dfy`, `level_loop.dfy`,
  `level_rooms.dfy`). These are `MagicLevel::new`, `level0`, `level_loop`
  and `level_rooms`, each as the worlds it builds and the `add_portal`
  calls it makes.
- **The camera** (`camera.dfy`, `keys.dfy`). This covers the camera, its
  uniform, and the keyboard and mouse controller.
- **The demo state** (`test_view.dfy`). `Test3DState` chooses the speed,
  computes the frame time and handles the window events.
- **The window layer** (`window.dfy`). Each window has a stack of game
  states and applies the transitions they ask for. `WindowManager` does the
  per-frame bookkeeping of the event loop.
- **The glTF renderer** (`gltf_model.dfy`, `instance.dfy`,
  `vertex_layout.dfy`, `uniform_pool.dfy`, `renderer.dfy`). This covers
  model loading, instances and their raw matrices, the vertex layouts, the
  uniform buffer pool and `ModelRenderer::render`.

How the model represents the source:

- `f32` arithmetic is modelled as exact real arithmetic.
- Trigonometry, normalisation, and the perspective and look-at matrices are
  passed in as parameters.
- A Rust panic is an error outcome: `None`, `Err(Panic)` or `ok == false`.
- GPU work is modelled as the commands or passes it records, and GPU buffers
  as the data written into them.

## Model

| member | source | states |
|---|---|---|
| Builder.Shapes | src/state/real_view/level.rs:379-385 | one portal-less world per builder, in order, holding exactly that builder's plane groups |
| Builder.BuildWorlds | src/state/real_view/level.rs:379-385 | succeeds exactly when every builder finds its textures, otherwise fails with "NO TEXTURE"; on success the worlds in order and a physics world holding all their planes' colliders |
| Builder.WorldStep | src/state/real_view/level.rs:382-385 | one more builder appends its world, appends its colliders after the others', and needs its own textures on top of the earlier ones' |
| Builder.AddPortals | src/state/real_view/level.rs:409-468 | the sequence of `add_portal` calls keeps the level valid and changes worlds, physics and handle map exactly as the reference `AddAll` does, leaving player, world and views alone |
| Builder.AddSpec | src/state/real_view/level.rs:368-377 | one `add_portal` call keeps the level valid and does what the reference `AddOne` does |
| Builder.Assemble | src/state/real_view/level.rs:379-470 | a builder fails with "NO TEXTURE" exactly when a world misses a texture; otherwise the player is in world 0 on the two colliders after the planes, with the requested views, and the portal graph of the reference `AddAll` |
| Builder.Built | src/state/real_view/level.rs:212-238 | after a builder's calls every world keeps its planes, holds exactly the portals the calls put there, every portal is linked to its partner and placed in the world it names, and the physics world is the planes followed by two sensors per pair |
| Builder.NewNeeds | src/state/real_view/level.rs:65-68 | `MagicLevel::new` has all its textures exactly when "gf", "bf" and "pf" are loaded |
| Builder.New | src/state/real_view/level.rs:379-470 | `MagicLevel::new` fails with "NO TEXTURE" exactly when one of "gf", "bf", "pf" is missing; otherwise a valid level with the player in world 0 (an existing world), five views of the surface's size and the four portal pairs as written, the last one ending in the fat tunnel |
| Builder.NewCorrected | src/state/real_view/level.rs:454-466 | the same builder with the last pair's second portal in the long tunnel (corrected): the same failures, and the corrected pairs |
| Builder.Slots | src/state/real_view/level.rs:233 | the two portals of a call get distinct slots in the worlds the call names, each after the portals earlier calls put there |
| Builder.PairPlaced | src/state/real_view/level.rs:368-377 | each call of a builder leaves its two portals at the computed slots, built from its arguments and leading to each other with scales `scale` and `1/scale` |
| Builder.StartSlots | src/state/real_view/level.rs:212-238 | from portal-less worlds the computed slots are exactly the slots the calls fill |
| Builder.PairJoins | src/state/real_view/level.rs:371-372 | a placed pair's two portals lead to each other |
| Builder.Counted | src/state/real_view/level.rs:233 | after a builder's calls each world holds as many portals as calls name it |
| Builder.NewJoins | src/state/real_view/level.rs:409-468 | which worlds the four calls of `MagicLevel::new` join, as written and corrected, and how many portals each world then receives |
| Builder.NewCounts | src/state/real_view/level.rs:409-468 | after `MagicLevel::new`, as written, the normal level holds four portals, the fat tunnel three and the long tunnel one, whatever planes the worlds have |
| Builder.NewSlots | src/state/real_view/level.rs:409-468 | the slots the four calls of `MagicLevel::new` fill, as written: the last call's second portal is the fat tunnel's third |
| Builder.NewSlotsCorrected | src/state/real_view/level.rs:454-466 | the slots the corrected calls fill: the last call's second portal is the long tunnel's second |
| Builder.NewGraph | src/state/real_view/level.rs:409-468 | the portal graph `MagicLevel::new` builds as written, whatever planes its worlds have: normal level portals 0, 1 and 3 to the fat tunnel's 0, 1 and 2 (the first two at scale 5, back at 1/5), portal 2 to the long tunnel's only portal at scale 1 |
| Builder.NewLinks | src/state/real_view/level.rs:454-466 | the corrected calls build the corrected graph whatever planes the worlds have: normal level portals 0, 1 to the fat tunnel's 0, 1 at scale 5 (back at 1/5), portals 2, 3 to the long tunnel's 0, 1 at scale 1 |
| Builder.NewGrounded | src/state/real_view/level.rs:409-468 | with the last pair's second portal in the long tunnel, every portal stands one unit above its world's floor |
| Builder.NewStranded | src/state/real_view/level.rs:454-466 | as written the last pair's second portal is in the fat tunnel below its floor, and out of drawing reach of any eye near standing height there |
| Level0.Level0Needs | src/state/real_view/level0.rs:15-17 | `MagicLevel::level0` has all its textures exactly when "gf", "bf" and "pf" are loaded |
| Level0.Level0Joins | src/state/real_view/level0.rs:314-326 | the corrected eight calls join the normal level to each of the four other worlds twice: eight portal ends in world 0 and two in each other world |
| Level0.Level0Tallies | src/state/real_view/level0.rs:284-400 | the portal-end counts per world of the eight joins |
| Level0.Level0JoinsAsWritten | src/state/real_view/level0.rs:284-400 | which worlds the eight calls join as written: eight portal ends in the normal level, three in the fat tunnel, one in the long tunnel and two in each of the last two worlds |
| Level0.Level0 | src/state/real_view/level0.rs:252-402 | `MagicLevel::level0` fails with "NO TEXTURE" exactly when one of "gf", "bf", "pf" is missing; otherwise a valid level with the player in world 0 (an existing world), five views and the eight portal pairs as written, the third one ending in the fat tunnel |
| Level0.Level0Corrected | src/state/real_view/level0.rs:314-326 | the same builder with the third pair's second portal in the long tunnel (corrected): the same failures, and the corrected pairs |
| Level0.Level0Counts | src/state/real_view/level0.rs:284-400 | after `MagicLevel::level0`, as written, the normal level holds eight portals, the fat tunnel three, the long tunnel one and the last two worlds two each, whatever their planes |
| Level0.Level0Slots | src/state/real_view/level0.rs:284-400 | the slots the eight calls fill, as written: the third call's second portal is the fat tunnel's third |
| Level0.Level0SlotsCorrected | src/state/real_view/level0.rs:314-326 | the slots the corrected calls fill: portals 2v-2 and 2v-1 of the normal level pair with portals 0 and 1 of world v |
| Level0.Level0Graph | src/state/real_view/level0.rs:284-400 | the portal graph `MagicLevel::level0` builds as written, whatever planes its worlds have: normal level portal i leads to the i-th portal the calls put in the other world and back (fat tunnel 0, 1, 2; long tunnel 0; worlds 3 and 4 0, 1), the first two pairs at scale 5 (back at 1/5), the rest at scale 1 |
| Level0.Level0Links | src/state/real_view/level0.rs:314-326 | the corrected calls build the corrected graph: normal level portals 2v-2 and 2v-1 lead to portals 0 and 1 of world v and back, the first two pairs at scale 5, the rest at scale 1 |
| Level0.Level0Grounded | src/state/real_view/level0.rs:284-400 | with the third pair's second portal in the long tunnel, every portal stands one unit above its world's floor |
| Level0.Level0Stranded | src/state/real_view/level0.rs:314-326 | as written the third pair's second portal is in the fat tunnel 14 units below its floor, out of drawing reach from anywhere a player there stands |
| LevelLoop.LevelLoop | src/state/real_view/level_loop.rs:65-123 | `MagicLevel::level_loop` fails with "NO TEXTURE" exactly when "gf" is missing; otherwise a valid level with the player in the room, ten views and the one portal pair |
| LevelLoop.SelfJoined | src/state/real_view/level_loop.rs:93-105 | one call joining a one-world table to itself leaves exactly two portals there, 0 and 1, leading to each other at scale 1 |
| LevelLoop.LoopJoined | src/state/real_view/level_loop.rs:93-105 | the loop's room holds exactly two portals leading to each other at scale 1, whatever its planes: walking out of one end comes back in at the other |
| LevelLoop.LoopGrounded | src/state/real_view/level_loop.rs:18-26 | both portals of the loop stand one unit above its floor |
| LevelRooms.Room | src/state/real_view/level_rooms.rs:20-27 | a room needs only its colour's texture and has its floor at height `zo` among four planes |
| LevelRooms.RoomWorlds | src/state/real_view/level_rooms.rs:74-76 | room `i` is built in colour `order[i]` at height `20 i` |
| LevelRooms.Next | src/state/real_view/level_rooms.rs:107 | the room after `i` is `(i + 1) % n` |
| LevelRooms.RoomPairs | src/state/real_view/level_rooms.rs:99-113 | call `i` joins room `i` to room `(i + 1) % n` at scale 1, and every call names existing rooms |
| LevelRooms.RoomsLoaded | src/state/real_view/level_rooms.rs:21 | the rooms find their textures exactly when every colour in use is loaded |
| LevelRooms.LevelRooms | src/state/real_view/level_rooms.rs:58-116 | with the colours in a shuffled order: success exactly when at most nine rooms are asked for and all their colours are loaded; "NO TEXTURE" exactly when a room built misses its colour; an index panic exactly when more than nine are asked for and all nine load; on success the rooms, five views and the ring of pairs |
| LevelRooms.ShuffleFree | src/state/real_view/level_rooms.rs:72-76 | with all nine colours loaded, whatever the shuffle, every room of a build of up to nine finds its colour |
| LevelRooms.Ring | src/state/real_view/level_rooms.rs:99-113 | call `i` of the ring joins room `i` and the next room |
| LevelRooms.RingTally | src/state/real_view/level_rooms.rs:99-113 | among the first `k` calls a room receives its own exit once its call is among them and its entry once the previous room's call is |
| LevelRooms.RoomCounts | src/state/real_view/level_rooms.rs:99-113 | every room of the ring holds exactly two portals |
| LevelRooms.RingSlots | src/state/real_view/level_rooms.rs:99-113 | with two or more rooms, call `i` fills the exit of room `i` and the entry of the next room |
| LevelRooms.RingLinks | src/state/real_view/level_rooms.rs:99-113 | with two or more rooms, each room's exit leads to the next room's entry and back, at scale 1 |
| LevelRooms.Walk | src/state/real_view/level_rooms.rs:107 | walking through exits always stays among the rooms |
| LevelRooms.WalkVisits | src/state/real_view/level_rooms.rs:107 | walking through exits from room 0 visits the rooms in order and is back in room 0 after `n` steps |
| LevelRooms.SingleRoom | src/state/real_view/level_rooms.rs:99-113 | with one room its two portals lead to each other |
| LevelRooms.RoomsGrounded | src/state/real_view/level_rooms.rs:100-112 | every portal of the ring stands one unit above the floor of its room |
| Physics.EmptyWorld | src/engine/physics/state.rs:29-50 | a new physics world holds no colliders |
| Physics.Insert | src/state/real_view/level.rs:220-224 | an inserted collider gets the next handle, and the colliders before it and the body are untouched |
| Levels.LevelAddPortal | src/state/real_view/level.rs:212-238 | `Level::add_portal` appends one unlinked portal (connecting (0, 0)) with the given plane, position and scale, keeps the earlier portals and the planes, inserts one sensor, and returns the sensor's handle and the new portal's index (the old portal count) |
| Levels.Partner | src/state/real_view/level.rs:46-47 | in a linked level a portal's `connecting` names an existing portal that leads back to it |
| Levels.SetConnecting | src/state/real_view/level.rs:371-372 | writing one portal's `connecting` changes that field and nothing else in any world |
| Levels.AddPlanes | src/state/real_view/level.rs:53-62 | `add_plane` on each plane in order keeps every plane and inserts one solid collider per plane, after the existing ones |
| Levels.BuildGroups | src/state/real_view/level.rs:65-85 | building the plane groups in order keeps every group and inserts their colliders group after group |
| Levels.TexturedLevel | src/state/real_view/level.rs:65-111 | a level builder fails with "NO TEXTURE" exactly when a texture it needs is missing; otherwise a portal-less level with its plane groups and their colliders added |
| Levels.NewObject | src/engine/physics/obj.rs:37-44 | `Object::new` inserts the bounding box and then the player's collider, returning their two handles, and places the body at its start |
| Magic.AddPair | src/state/real_view/level.rs:368-377 | `MagicLevel::add_portal`: every world keeps its planes and its portals and gains exactly the new portals it is named by; the first portal goes at the end of world `p1.world` with scale `scale`, the second after it (or at the end of `p2.world`) with scale `1/scale`, each leading to the other; two sensors are appended and their handles returned |
| Magic.AddToWorld | src/state/real_view/level.rs:369-370 | one `Level::add_portal` in the list of worlds: only the named world gains a portal, at the end of its list, unlinked; all earlier portals and planes stay |
| Magic.AddPairKeepsLinked | src/state/real_view/level.rs:368-377 | the paired insertion keeps every portal linked to a partner that leads back with the reciprocal scale, and stored in the world it names |
| Magic.OldPortalLinked | src/state/real_view/level.rs:371-372 | a portal present before the paired insertion stays linked in its own world |
| Magic.FirstPortalLinked | src/state/real_view/level.rs:371 | the first new portal leads to the second, with reciprocal scales |
| Magic.SecondPortalLinked | src/state/real_view/level.rs:372 | the second new portal leads to the first, with reciprocal scales |
| Magic.AddPairKeepsMap | src/state/real_view/level.rs:374-375 | after the insertion every handle in `portals_map` is a sensor collider naming an existing portal, the two new handles included |
| Magic.AddOne | src/state/real_view/level.rs:368-377 | one `add_portal` call keeps the number of worlds and appends the two sensors of its portals |
| Magic.AddAll | src/state/real_view/level.rs:409-468 | a series of calls keeps the number of worlds |
| Magic.WorldsOf | src/state/real_view/level.rs:409-468 | the pair of worlds each call names, in call order |
| Magic.EndsAppend | src/state/real_view/level.rs:409-468 | the portal count per world of two series one after the other is the sum of their counts |
| Magic.EndsSnoc | src/state/real_view/level.rs:409-468 | one more call adds its own portals in a world to the count |
| Magic.EndsTally | src/state/real_view/level.rs:409-468 | the portals the first `k` calls put in a world depend only on the worlds they name |
| Magic.AddAllCounts | src/state/real_view/level.rs:409-468 | a series keeps every world's planes and every earlier portal, and adds to each world exactly the portals its calls put there |
| Magic.Sensors | src/state/real_view/level.rs:220-224 | two sensors per call |
| Magic.AddAllPhysics | src/state/real_view/level.rs:220-224 | a series appends the sensors of its calls, in call order, and does not move the player's body |
| Magic.KeepsPair | src/state/real_view/level.rs:233-239 | later calls only append, so a placed pair stays where it is |
| Magic.AddAllFirst | src/state/real_view/level.rs:409-468 | a series is its first call followed by the rest |
| Magic.EndsBefore | src/state/real_view/level.rs:409-468 | the portals before call `i` are those of the first call and then those of the others |
| Magic.SlotsShift | src/state/real_view/level.rs:233 | dropping the first call leaves every later call's slots unchanged once counted from the arena after it |
| Magic.ShiftedSlots | src/state/real_view/level.rs:233 | the slot arithmetic behind that shift |
| Magic.AddOneCount | src/state/real_view/level.rs:369-370 | one call adds to a world exactly the portals it puts there |
| Magic.AddAllPlaces | src/state/real_view/level.rs:368-377 | call `i` of a series puts its first portal right after those already in its world and its second after those, built from its arguments and linked with scales `scale` and `1/scale` |
| Magic.FirstPlaced | src/state/real_view/level.rs:368-377 | the first call's pair survives the rest of the series |
| Magic.AddAllKeepsLinked | src/state/real_view/level.rs:368-377 | a series of paired insertions keeps every portal linked and in the world it names |
| Magic.Gpu.constructor | src/state/real_view/level.rs:515-523 | the GPU state starts with a fresh camera uniform and nothing recorded |
| Magic.MagicLevel.constructor | src/state/real_view/level.rs:399-407 | a builder's level starts valid, from portal-free worlds, with the player in world 0, an empty handle map and `nViews` views of the surface's size |
| Magic.MagicLevel.AddPortal | src/state/real_view/level.rs:368-377 | keeps the level valid (every portal linked and placed, every registered handle a sensor naming a portal) and leaves worlds, physics and map as `AddPair` describes, with both new handles registered to their portals |
| Magic.MagicLevel.Update | src/state/real_view/level.rs:472-513 | after the physics step the events are drained in order through the crossing protocol of `Crossing.Drain` (stopped events skipped, each portal crossed at most once per tick), the level stays valid (the player's world still exists, since each crossing lands in a linked partner's world), worlds and map are unchanged, and the camera's eye ends on the body |
| Magic.MagicLevel.Cross | src/state/real_view/level.rs:492-507 | one crossing: the player's world becomes the partner portal's world, the body goes to the carried camera's eye and the bounding box is rescaled by the portal's scale, as `Crossing.Enter` says; the level stays valid, the new world among the existing ones |
| Magic.MagicLevel.RenderInPortal | src/state/real_view/level.rs:515-609 | records exactly the passes of the reference traversal `Traversal.InPortal` (depth pass, scene pass, then each visible portal's view and composite) and leaves the uniform holding this camera's matrix |
| Magic.MagicLevel.ScanPortals | src/state/real_view/level.rs:562-608 | the world loop of the scan records the reference `Scan` from the first portal and restores the camera's uniform |
| Magic.MagicLevel.ScanWorld | src/state/real_view/level.rs:563-607 | the portal loop of one world records that world's share of the reference scan |
| Magic.MagicLevel.ScanNext | src/state/real_view/level.rs:563-607 | one step of the portal loop records that portal's share of the reference scan |
| Magic.MagicLevel.VisitPortal | src/state/real_view/level.rs:564-606 | a portal is skipped when it is the one being looked through, more than 5 units away in height, facing away, or behind the viewer; otherwise its linked view is rendered one level deeper and composited with the uniform restored, exactly as `Traversal.Visit` says |
| Magic.MagicLevel.VisitOnScreen | src/state/real_view/level.rs:633-663 | a portal not seen with the uniform as it is, or more than 5 units away in height, records nothing and keeps the uniform; otherwise its view at depth 0 and the screen composite, leaving the camera's uniform |
| Magic.MagicLevel.ResizeViews | src/state/real_view/level.rs:617-621 | every view is reallocated at the surface's size exactly when the first view no longer has it |
| Magic.MagicLevel.Render | src/state/real_view/level.rs:611-667 | with at least one world (`levels[me_world]` is indexed), resizes the views, then records the main scene of the player's world followed by exactly the passes of the reference `Traversal.RenderTrace` |
| Magic.MagicLevel.ScreenAll | src/state/real_view/level.rs:631-665 | the world loop of `render` records the reference `TopScan` |
| Magic.MagicLevel.ScreenWorld | src/state/real_view/level.rs:632-664 | the portal loop of one world of `render` records that world's share of `TopScan` |
| Crossing.CrossedInFront | src/state/real_view/level.rs:494-499 | through a wall portal with an orthonormal frame, the crossed eye ends exactly 0.02 in front of the linked portal's plane |
| Crossing.Enter | src/state/real_view/level.rs:492-507 | one crossing keeps the number of colliders (only the bounding box is reshaped) |
| Crossing.RescaleTwice | src/state/real_view/level.rs:502-505 | rescaling the bounding box twice is rescaling once by the product of the scales |
| Crossing.Step | src/state/real_view/level.rs:478-510 | one event of the loop keeps the portal graph, the map and the player's handles usable |
| Crossing.Drain | src/state/real_view/level.rs:478-510 | the whole event loop keeps them usable |
| Crossing.Crossings | src/state/real_view/level.rs:483-491 | every portal a tick crosses is one the handle map registers |
| Crossing.Starts | src/state/real_view/level.rs:480-482 | the events kept are all start events, and no more than there were |
| Crossing.StopsSkipped | src/state/real_view/level.rs:480-482 | stop events have no effect: the loop over all events equals the loop over the start events alone |
| Crossing.CrossedOnce | src/state/real_view/level.rs:489-491 | each portal is crossed at most once per tick, and none already crossed is crossed again |
| Crossing.ColedIsCrossings | src/state/real_view/level.rs:477-491 | at the end of a tick the crossed set is the starting set plus exactly the portals crossed |
| Crossing.BoxRescaled | src/state/real_view/level.rs:502-505 | over a tick the bounding box's x and y half-extents are multiplied by the product of the crossed portals' scales and its z half-extent is unchanged |
| Crossing.EnterBox | src/state/real_view/level.rs:502-505 | one crossing rescales the bounding box by the entered portal's scale |
| Crossing.EndsBehindLastCrossing | src/state/real_view/level.rs:478-512 | after a tick the player is in the world of the partner of the last portal crossed, with the body at the camera's eye; with no crossing, world, body and camera are unchanged |
| Portals.FlatBox | src/state/real_view/level.rs:54 | a plane's box keeps half-extent `r` along every axis its normal does not use and is flat along a unit axis normal |
| Portals.PlaneFriction | src/state/real_view/level.rs:55 | walls (up with no z component) get friction 0, floors and ceilings 1 |
| Portals.AddPlane | src/state/real_view/level.rs:53-62 | `add_plane` appends one solid collider with the plane's box, centre and friction, keeps the earlier colliders and the body, and appends the plane |
| Portals.PortalRight | src/state/real_view/level.rs:213-217 | a portal's right axis is non-zero, horizontal and perpendicular to its normal: x for a horizontal portal, otherwise normal × z |
| Portals.SensorBox | src/state/real_view/level.rs:222 | a portal's sensor is the plane's box shrunk by 1/16 along the axes the normal does not use, flat along a unit axis normal |
| Portals.WillSeeFace | src/state/real_view/level.rs:262-285 | true exactly when some vertex of the portal's plane projects into the depth range [0, 1] after the divide by w (a zero w never does) |
| Portals.FromCameraPortal | src/state/real_view/level.rs:289-307 | the camera in the portal's frame with the eye offset scaled by the portal's scale and the target unscaled |
| Portals.DotScale | src/state/real_view/level.rs:290-293 | scaling the offset before the dot product is scaling the dot product |
| Portals.FromCameraPortalForView | src/state/real_view/level.rs:309-335 | the view coordinates: forward unscaled, up scaled, right scaled inside the portal's width and only up to its edge beyond it; target coordinates unscaled |
| Portals.ChangeCameraWithoutForward | src/state/real_view/level.rs:337-349 | only eye and target change (the lens is kept), and the target is rebuilt in full at the portal |
| Portals.ChangeCameraForPortal | src/state/real_view/level.rs:351-363 | only eye and target change, and the target is rebuilt the same way |
| Portals.WithoutForwardDiffers | src/state/real_view/level.rs:337-363 | the two camera changes set the same target, and their eyes differ by exactly the forward term along the normal |
| Portals.WithoutForwardInPlane | src/state/real_view/level.rs:337-343 | in an orthonormal frame the eye rebuilt without the forward term lies in the portal's plane |
| Portals.ViewRightContinuous | src/state/real_view/level.rs:314-322 | the view's right map is continuous at the portal's edge |
| Portals.ViewRightUnscaled | src/state/real_view/level.rs:314-322 | at scale 1 the view's right map is the identity |
| Portals.ViewRightOverhang | src/state/real_view/level.rs:316-318 | beyond the edge the overhang past the scaled edge equals the overhang past the real one, on the same side |
| Portals.InFrameCoords | src/state/real_view/level.rs:352-355 | in an orthonormal frame a vector built from three coordinates reads them back (two mirrored) |
| Portals.TargetInFrame | src/state/real_view/level.rs:359-361 | the rebuilt target is the frame vector of the target coordinates |
| Portals.CoordsAfterChange | src/state/real_view/level.rs:351-363 | after `change_camera_for_portal` the camera's coordinates in that portal's frame are the given ones with forward and right mirrored |
| Portals.Rebuild | src/state/real_view/level.rs:351-363 | an orthonormal frame rebuilds any vector from its three coordinates |
| Portals.ChangeWithOwnCoords | src/state/real_view/level.rs:351-363 | changing a camera at a portal with its own mirrored coordinates there puts it back where it was |
| Portals.UnscaleMirror | src/state/real_view/level.rs:290 | mirroring commutes with scaling, and the reciprocal scale undoes the scale |
| Portals.RoundTrip | src/state/real_view/level.rs:289-363 | going through a portal and straight back through its partner (reciprocal scale, orthonormal frames) restores the camera's eye, target and lens |
| Cameras.NewCamera | src/engine/render/camera.rs:35-44 | a new camera sits at the given eye looking along +x, with aspect 16/9 and a near plane before the far one |
| Cameras.FlatOfUp | src/engine/render/camera.rs:23 | with UP = z the source's `(cos, sin(1 - UP.y), sin(1 - UP.z))` is the horizontal direction `(cos, sin, 0)` |
| Cameras.CalcTargetShape | src/engine/render/camera.rs:21-27 | the target for a yaw and a pitch is `(cos yaw cos pitch, sin yaw cos pitch, sin pitch)` |
| Cameras.FRemRange | src/engine/render/camera.rs:256 | `yaw % 360` lies strictly between -360 and 360 and keeps the sign of the yaw |
| Cameras.ControlOf | src/engine/render/camera.rs:123-157 | W/Up drive forward, S/Down backward, A/Left left, D/Right right, and exactly Space, LShift, Q, E and those eight keys are handled |
| Cameras.StrafeIsCross | src/engine/render/camera.rs:231 | the strafe axis `UP × forward` is the heading turned a quarter left in the horizontal plane |
| Cameras.MovementCancels | src/engine/render/camera.rs:223-249 | holding both keys of an opposite pair moves as holding neither |
| Cameras.MovementVertical | src/engine/render/camera.rs:243-249 | with a horizontal heading the movement has height 0 unless exactly one of Space and LShift is held, and then ±1 |
| Cameras.CameraUniform.constructor | src/engine/render/camera.rs:55-60 | a new uniform holds the zero position and the identity matrix |
| Cameras.CameraUniform.UpdateViewProj | src/engine/render/camera.rs:62-65 | the uniform holds the camera's eye as a point and its view-projection matrix |
| Cameras.CameraController.constructor | src/engine/render/camera.rs:96-114 | a new controller has no key or button held, no drag, zero angles, and a pitch inside [-89, 89] |
| Cameras.CameraController.ProcessEvents | src/engine/render/camera.rs:117-158 | a mapped key sets exactly its control's flag to whether it is pressed and is reported handled; any other key changes nothing and is not handled |
| Cameras.CameraController.ProcessMouseMoved | src/engine/render/camera.rs:161-196 | tracking follows the right button; a press starts tracking at the current position as a fraction of the window, tracking records the offset from there, and keys and angles are untouched |
| Cameras.CameraController.ProcessMouseInput | src/engine/render/camera.rs:198-210 | only the right button changes state, and it sets exactly the pressed flag |
| Cameras.CameraController.Nudge | src/engine/render/camera.rs:224-229 | an opposite key pair adds the vector, subtracts it, or cancels |
| Cameras.CameraController.EyeDelta | src/engine/render/camera.rs:223-249 | the movement is the closed form `Movement`: heading, strafe axis and UP each added or removed by their key pair |
| Cameras.CameraController.UpdateDirection | src/engine/render/camera.rs:213-264 | the yaw is re-derived from the target's heading (mirrored for negative y), the returned movement is `Movement` along that heading, a tracked drag turns yaw (mod 360) and pitch (clamped to [-89, 89]) and is used up, and the camera points along the resulting yaw and pitch |
| Cameras.CameraController.ApplyDrag | src/engine/render/camera.rs:253-261 | a tracked drag turns the yaw by 180 degrees per window width modulo 360 and the pitch by 180 per window height clamped to [-89, 89], then is reset; with no drag nothing changes |
| Instance.RotationToMatrix4 | src/engine/render/glft/instance.rs:14-46 | the 4x4 rotation matrix has the identity's last row and a zero last column above it |
| Instance.RotationDiagonal | src/engine/render/glft/instance.rs:14-79 | both rotation matrices have `1 - 2(y² + z²)`, `1 - 2(x² + z²)` and `1 - 2(x² + y²)` on the diagonal, the standard quaternion-to-matrix diagonal |
| Instance.UpperIsMatrix3 | src/engine/render/glft/instance.rs:14-79 | `rotation_to_matrix4` and `rotation_to_matrix3` agree: the 3x3 block of the first is the second |
| Instance.IdentityQuat4 | src/engine/render/glft/instance.rs:14-46 | the identity quaternion gives the 4x4 identity matrix |
| Instance.IdentityQuat3 | src/engine/render/glft/instance.rs:48-79 | the identity quaternion gives the 3x3 identity matrix |
| Instance.ColumnsOf | src/engine/render/glft/instance.rs:87 | the raw matrix is stored column-major: its first column is the matrix's first entries of each row, its last the translation column |
| Instance.ToRaw | src/engine/render/glft/instance.rs:83-90 | the raw normal matrix is the 3x3 rotation, column-major |
| Instance.ToRawColumns | src/engine/render/glft/instance.rs:83-90 | the raw model matrix's first three columns are the rotation's with 0 appended and its last column is `(position, 1)`: translation after rotation |
| Instance.InstanceDescPacked | src/engine/render/glft/instance.rs:102-147 | the instance layout steps per instance with a 100-byte stride, uses locations 5 to 11 in order, and its seven attributes start at 0, 16, 32, 48, 64, 76 and 88 and tile the stride without gap or overlap |
| VertexLayout.FormatSize | src/engine/render/glft/instance.rs:102-147 | every float format in use is 8 to 16 bytes and a multiple of 4 |
| VertexLayout.PackedInside | src/engine/render/glft/instance.rs:102-147 | in a packed layout every attribute ends within the stride and after every earlier attribute |
| VertexLayout.OffsetsGrow | src/engine/render/glft/instance.rs:102-147 | in a packed layout an attribute ends no later than any later one starts, so attributes never overlap |
| GltfModel.PrimitiveMesh | src/engine/render/glft/model.rs:80-136 | a primitive loads exactly when it has no more normals and no more texture coordinates than positions; otherwise writing by running index panics |
| GltfModel.Assembled | src/engine/render/glft/model.rs:86-111 | a primitive gives exactly one vertex per position |
| GltfModel.JoinedFails | src/engine/render/glft/model.rs:69-71 | once one part of a loop fails, the whole loop fails |
| GltfModel.JoinedParts | src/engine/render/glft/model.rs:69-71 | a loop over parts succeeds exactly when every part does, and then holds the parts one after the other |
| GltfModel.JoinedStep | src/engine/render/glft/model.rs:69-71 | one more successful part is appended to what the loop has loaded |
| GltfModel.OwnParts | src/engine/render/glft/model.rs:78-80 | a node with a mesh contributes one part per primitive |
| GltfModel.ChildParts | src/engine/render/glft/model.rs:69-71 | a node contributes one subtree part per child |
| GltfModel.NodesParts | src/engine/render/glft/model.rs:149-151 | a scene contributes one tree per root node |
| GltfModel.ScenesFail | src/engine/render/glft/model.rs:148-152 | once the scenes loaded so far panic, loading every scene panics |
| GltfModel.OwnLast | src/engine/render/glft/model.rs:67-138 | a loaded node lists all its children's meshes first and then exactly one mesh per primitive of its own mesh, in primitive order, each the mesh that primitive makes |
| GltfModel.OneEach | src/engine/render/glft/model.rs:80-136 | a loop pushing one mesh per item ends with one mesh per item, in item order |
| GltfModel.NodeData.constructor | src/engine/render/glft/model.rs:56 | the mesh list starts empty |
| GltfModel.NodeData.LoadPrimitive | src/engine/render/glft/model.rs:81-135 | the three vertex loops and the index read produce `PrimitiveMesh`: one vertex per position, panicking exactly when normals or texture coordinates outnumber the positions |
| GltfModel.NodeData.LoadNode | src/engine/render/glft/model.rs:67-138 | `load_node` succeeds exactly when the node's subtree loads, and then appends the subtree's meshes, children before the node's own |
| GltfModel.NodeData.LoadChildren | src/engine/render/glft/model.rs:69-71 | the children loop appends every child's subtree in child order, and fails exactly when one of them does |
| GltfModel.NodeData.LoadOwn | src/engine/render/glft/model.rs:78-137 | the primitives loop appends one mesh per primitive, and fails exactly when one primitive panics |
| GltfModel.NodeData.LoadNodes | src/engine/render/glft/model.rs:149-151 | one scene's root trees are appended tree by tree, failing exactly when one tree does |
| GltfModel.NodeData.LoadScenes | src/engine/render/glft/model.rs:148-152 | every scene's trees are appended scene by scene, failing exactly when one scene does |
| GltfModel.BufferData | src/engine/render/glft/model.rs:43-46 | the buffer data is the blob alone when the file has one and empty otherwise |
| GltfModel.MaterialsInOrder | src/engine/render/glft/model.rs:154-182 | loaded materials come one per glTF material in order, each named after it or "Default Material", with a texture exactly when it has a base-colour image, and that image was in a buffer view |
| GltfModel.UriImageFails | src/engine/render/glft/model.rs:172-174 | a base-colour image behind a URI makes the load fail, with the URI error unless an earlier material failed first |
| GltfModel.ErrorStays | src/engine/render/glft/model.rs:154-182 | the `?` and the early return mean the first failing material's error is the load's error |
| GltfModel.LoadSpec | src/engine/render/glft/model.rs:47-54 | any buffer behind a URI makes the load an error, before any node or material is read |
| GltfModel.Load | src/engine/render/glft/model.rs:42-185 | `Model::load` returns `LoadSpec`: the URI-buffer error first, then a panic from a primitive, then the first material error, else all meshes of all scenes and all materials |
| GltfModel.LoadMaterial | src/engine/render/glft/model.rs:155-181 | one material is named after its glTF material or "Default Material"; no image gives no texture; a view image gives a texture of exactly the bytes it spans, a panic when it lies outside the buffer and an error when they do not decode; a URI image is an error |
| GltfModel.LoadMaterials | src/engine/render/glft/model.rs:154-182 | the material loop pushes each material in order and returns the first failure |
| GltfModel.ModelVertexDescPacked | src/engine/render/glft/model.rs:189-214 | the vertex layout steps per vertex with a 32-byte stride, locations 0 to 2 at offsets 0, 12 and 20, tiling the vertex without gap or overlap |
| GltfModel.ModelDrawsEachMesh | src/engine/render/glft/model.rs:263-276 | drawing a model records four commands per mesh: every mesh once, in order, with all its indices and the same instance range and bind group |
| GltfModel.Encoder.constructor | src/engine/render/glft/model.rs:239-242 | a new encoder has recorded nothing |
| GltfModel.Encoder.Record | src/engine/render/glft/model.rs:257-260 | a call is appended to what the encoder recorded |
| GltfModel.Encoder.DrawMeshInstanced | src/engine/render/glft/model.rs:251-261 | the mesh's vertex and index buffers, the local bind group in slot 1, then all its indices drawn for the instances |
| GltfModel.Encoder.DrawMesh | src/engine/render/glft/model.rs:243-249 | drawing a mesh is drawing it for the single instance 0 |
| GltfModel.Encoder.DrawModelInstanced | src/engine/render/glft/model.rs:267-276 | the mesh loop records each mesh's draw in order (see `ModelDrawsEachMesh`) |
| GltfModel.Encoder.DrawModel | src/engine/render/glft/model.rs:263-265 | drawing a model is drawing it for the single instance 0 |
| Renderers.ViewOfFirst | src/engine/render/glft/renderer.rs:363-365 | a model binds a texture exactly when one of its materials has a diffuse texture, and then the first such material's; otherwise the off-screen view |
| Renderers.RawInstances | src/engine/render/glft/renderer.rs:389-393 | the instance data holds one raw instance per instance |
| Renderers.AsU32 | src/engine/render/glft/renderer.rs:435 | `len() as u32` is below 2^32 and equals the count whenever the count fits |
| Renderers.OrInsert | src/engine/render/glft/renderer.rs:360-362 | `entry(k).or_insert_with` leaves a present key's value alone, gives a missing key the new value, and touches no other key |
| Renderers.CachedEntries | src/engine/render/glft/renderer.rs:353-406 | after the first loop the cache holds exactly the old keys and the indices of the objects; old entries keep their values and only missing indices get new ones |
| Renderers.CachedCovers | src/engine/render/glft/renderer.rs:430-436 | after the first loop every object's index is cached, so the lookups of the second loop never panic |
| Renderers.BindGroupsFor | src/engine/render/glft/renderer.rs:360-382 | one candidate bind group per object |
| Renderers.RawsFor | src/engine/render/glft/renderer.rs:386-403 | one candidate instance buffer per object |
| Renderers.CachedCoherent | src/engine/render/glft/renderer.rs:360-382 | caching new bind groups over the same pool buffers keeps every cached bind group bound to its own index's buffer |
| Renderers.ModelRenderer.constructor | src/engine/render/glft/renderer.rs:77-327 | a new renderer holds the camera's uniform, an empty pool labelled "Locals" sized for one `Locals`, and no cached bind group or instance buffer |
| Renderers.ModelRenderer.UpdateCamera | src/engine/render/glft/renderer.rs:329-331 | the camera uniform holds the new camera's eye and view-projection |
| Renderers.ModelRenderer.Render | src/engine/render/glft/renderer.rs:335-444 | the pool is regrown only when too small; every object's locals land in its own buffer; bind groups and instance buffers are cached by index and never replaced; the encoder gets the light pipeline, the render pipeline, the global group, then each object's instances and model in order; a regrowth leaves earlier cached bind groups bound to dropped buffers |
| Renderers.ModelRenderer.Upload | src/engine/render/glft/renderer.rs:344-406 | the pool grows to one fresh buffer per object only when too small, then the first loop fills the buffers and caches, and the cache stays coherent unless an earlier cache survives a regrowth |
| Renderers.ModelRenderer.Prepare | src/engine/render/glft/renderer.rs:353-406 | the first loop writes each object's locals into its buffer, leaves the buffers beyond the objects alone, and caches bind groups and instance data only for missing indices |
| Renderers.ModelRenderer.PrepareNode | src/engine/render/glft/renderer.rs:355-403 | one round writes only object `i`'s buffer and inserts its bind group and instance data only if index `i` has none |
| Renderers.ModelRenderer.Draw | src/engine/render/glft/renderer.rs:409-441 | the light pipeline, the render pipeline and the global group are set, then each object is drawn in order |
| Renderers.ModelRenderer.DrawNode | src/engine/render/glft/renderer.rs:430-437 | object `i`'s cached instance buffer goes in slot 1 and its model is drawn for all its instances with its cached bind group |
| Uniforms.UniformBuffer.constructor | src/engine/render/glft/mod.rs:35-40 | a new uniform buffer carries the pool's label and size and holds nothing written yet |
| Uniforms.UniformBuffer.Write | src/engine/render/glft/mod.rs:47 | writing a buffer at offset 0 replaces its contents with the data |
| Uniforms.UniformPool.constructor | src/engine/render/glft/mod.rs:23-29 | a new pool keeps its label and size and has no buffers, and is valid |
| Uniforms.UniformPool.AllocBuffers | src/engine/render/glft/mod.rs:31-43 | the old buffers are dropped and exactly `count` new, distinct, unwritten buffers of the pool's label and size replace them |
| Uniforms.UniformPool.UpdateUniform | src/engine/render/glft/mod.rs:45-49 | an empty pool ignores the write, an in-range index writes exactly that buffer and leaves every other unchanged, and an index past the end panics with nothing written |
| TestView.ChosenSpeed | src/state/real_view/test_view.rs:79-108 | the later checks win: Numpad1 held gives speed 1 whatever else is held, no speed key held keeps the old speed, and otherwise the speed is one that a held key selects |
| TestView.Dt | src/state/real_view/test_view.rs:109 | the frame time lies in [0, 0.05]: 1 ms on the first update, the elapsed time when it is at most 0.05 s, and 0.05 s when more elapsed |
| TestView.TestState.constructor | src/state/real_view/test_view.rs:33-46 | a new state has no update yet, the camera at (-3, 0, 1), an idle controller with zero angles, no level and speed 1 |
| TestView.TestState.SelectSpeed | src/state/real_view/test_view.rs:79-108 | the ten key checks leave the speed `ChosenSpeed` and nothing else changed |
| TestView.TestState.Update | src/state/real_view/test_view.rs:77-139 | the speed is the chosen one and the frame time `Dt`; the controller's yaw is the heading of the old target (turned by a tracked drag, modulo 360) and its pitch turned and clamped to [-89, 89], key flags kept; without a level the camera is turned; with one, the level's world and physics and the camera are those of `Crossing.Drain` over the events from the turned camera and the stepped body, the eye on the body, with the portal graph and map unchanged; the time is recorded; with Numpad6 held it then panics (`ok` is false exactly then, after all of the above), otherwise it asks for no transition and a poll |
| TestView.TestState.OnResized | src/state/real_view/test_view.rs:193-207 | the aspect ratio becomes width / height exactly when both exceed 1 and a GPU is present; otherwise the camera is unchanged |
| TestView.TestState.OnFocusLost | src/state/real_view/test_view.rs:180-184 | losing focus releases and untracks the right mouse button and leaves the keys and the pitch alone |
| TestView.TestState.OnKey | src/state/real_view/test_view.rs:185-189 | a key with a virtual code sets exactly its control's flag to its state; a key without one changes nothing |
| Traversal.ScanStep | src/state/real_view/level.rs:562-607 | each portal of the inner scan contributes its own recursion and composite unless skipped, followed by the rest of the scan |
| Traversal.TopScanStep | src/state/real_view/level.rs:631-665 | each portal of the screen scan contributes its recursion from depth 0 and its screen composite unless hidden, and the test after a drawn portal uses the camera's own matrix |
| Traversal.AllInPoolAppend | src/state/real_view/level.rs:515-609 | passes that stay in the pool still do when concatenated |
| Traversal.AllInPoolLower | src/state/real_view/level.rs:515-609 | passes within views from a depth on are within views from any lower depth |
| Traversal.InPortalInPool | src/state/real_view/level.rs:515-609 | `render_in_portal` at depth `dep` draws only into views `dep` to the last of the pool and composites only from a view that exists, however the portals are linked, even to themselves |
| Traversal.ScanInPool | src/state/real_view/level.rs:562-607 | every pass of an inner scan at depth `dep` stays within the pool from view `dep` on |
| Traversal.AllRenderAppend | src/state/real_view/level.rs:611-667 | passes on screen or in the pool still are when concatenated |
| Traversal.TopScanInPool | src/state/real_view/level.rs:631-665 | every pass of the screen scan is a screen composite or a pass in the pool at a valid depth |
| Traversal.RenderInPool | src/state/real_view/level.rs:611-667 | `render` first draws the player's world with the caller's uniform, and every pass it records is on screen or in a valid view of the pool |
| Traversal.ScanKeys | src/state/real_view/level.rs:562-581 | every portal a scan enters is a real portal that passes all four skip tests |
| Traversal.CompositesAtAppend | src/state/real_view/level.rs:515-609 | the composites at a depth of two traces joined are those of each, in order |
| Traversal.CompositesAtDeeper | src/state/real_view/level.rs:515-609 | a trace that stays in views deeper than `dep` composites nothing into view `dep` |
| Traversal.CompositeListed | src/state/real_view/level.rs:596-606 | every composite pass at a depth is listed among that depth's composites |
| Traversal.ScanComposites | src/state/real_view/level.rs:562-607 | the composites an inner scan puts into its own view are exactly the portals it enters, in scan order |
| Traversal.InPortalComposites | src/state/real_view/level.rs:515-609 | `render_in_portal` composites into its own view exactly the portals its scan does not skip, in order, and none when the next view is past the pool |
| Traversal.ScanKeysComplete | src/state/real_view/level.rs:562-581 | every portal that passes the skip tests and lies ahead of the scan position is entered |
| Traversal.EnteredIffVisible | src/state/real_view/level.rs:562-607 | a portal is composited into view `dep` if and only if it passes all four skip tests, and the entry portal never is |
| Traversal.NeverFromEntry | src/state/real_view/level.rs:564-566 | no composite at the entry depth draws the entry portal itself |
| Window.Stops | src/engine/window.rs:159-161 | popping every state stops each exactly once, from the top of the stack down |
| Window.Run | src/engine/window.rs:141-171 | `process_tran` panics on an empty stack whatever the transition, because it unwraps the top first, and a transition never touches the key sets, the event mark or the loop state |
| Window.RunPrefix | src/engine/window.rs:164-168 | no transitions leave the window as it is, and a batch never touches the key sets, the event mark or the loop state |
| Window.PanicStays | src/engine/window.rs:164-168 | once a transition of a `Vec` panics, the rest of it never runs |
| Window.PrefixOnly | src/engine/window.rs:164-168 | the first transitions of a `Vec` act the same whatever follows them |
| Window.PushLaw | src/engine/window.rs:145-148 | `Push` starts the new state and puts it on top of an unchanged stack |
| Window.PopLaw | src/engine/window.rs:149-152 | `Pop` stops the top state and removes exactly it |
| Window.SwitchLaw | src/engine/window.rs:153-157 | `Switch` stops the top state, then starts its replacement in the same place, leaving the states below and the stack's height unchanged |
| Window.ExitLaw | src/engine/window.rs:158-163 | `Exit` stops every state from the top down, empties the stack and stops the window |
| Window.StayLaw | src/engine/window.rs:164-169 | `None` and an empty `Vec` change nothing |
| Window.BatchInOrder | src/engine/window.rs:164-168 | a `Vec` applies its transitions in order, each to the result of the ones before |
| Window.ExitThenPanics | src/engine/window.rs:142 | any transition after `Exit` in the same `Vec` panics, as the stack is then empty |
| Window.EmptyPanics | src/engine/window.rs:142 | on an empty stack every transition panics, `None` and an empty `Vec` included |
| Window.RunIgnoresLoopState | src/engine/window.rs:141-171 | what a transition does to the stack, the running flag and the calls does not depend on the loop state |
| Window.PrefixIgnoresLoopState | src/engine/window.rs:164-168 | the same holds for the first transitions of a `Vec` |
| Window.Tick | src/engine/window.rs:120-138 | with no states the loop state is `WAIT_ALL` joined with nothing else; otherwise `loop_once` panics exactly when the top state's transition does, and then the loop state is the shadow updates joined in order, then the update's |
| Window.Seen | src/engine/window.rs:319-350 | any event marks the window; a real key press adds the key to the pressed set and a real release to the released set; nothing else changes |
| Window.FrameLaw | src/engine/window.rs:503-530 | a frame of a window not passed over empties both key sets and clears the event mark; a halted window is stopped with its stack unchanged, and a running one panics exactly when its transition does |
| Window.Framer | src/engine/window.rs:500-531 | each window's frame is the one with its own states' results |
| Window.SweepPrefix | src/engine/window.rs:500-531 | the loop over the windows keeps exactly the set of window ids |
| Window.SweepStep | src/engine/window.rs:500-531 | each window visited either panics or has its frame stored, is set aside if halted and has its loop state joined if running |
| Window.PanicSweeps | src/engine/window.rs:500-531 | once a window's frame panics, no later window is visited |
| Window.SweepFrames | src/engine/window.rs:500-531 | after the first windows the loop has run each one's frame on the window as it was and left the rest alone, panicking exactly when one of those frames did |
| Window.SweepUntouched | src/engine/window.rs:500-531 | a window not reached yet is unchanged |
| Window.SweepJoined | src/engine/window.rs:518-523 | `f_ls` is `WAIT_ALL` joined in order with the loop states of the running windows visited |
| Window.HaltedInMembers | src/engine/window.rs:524-529 | a window is set aside exactly when it was visited, is not passed over and is halted |
| Window.SweepGathers | src/engine/window.rs:500-531 | after the first windows, `not_running` holds exactly the halted ones visited, the root counts as stopped exactly when it is among them, and `f_ls` joins the running ones' loop states in order |
| Window.SweepAllPrepared | src/engine/window.rs:500 | iterating the map visits every window exactly once |
| Window.SweepAllFrames | src/engine/window.rs:497-536 | the whole loop panics exactly when some window's frame does, and otherwise leaves every window with its frame, or unchanged when passed over |
| Window.SweepAllGathers | src/engine/window.rs:497-536 | removing `not_running` keeps exactly the windows that were not halted, the root stopped exactly when it was halted, and `f_ls` is the joined loop states of the running windows |
| Window.FinalFlowAsWritten | src/engine/window.rs:532 | as written the final control flow is the joined loop states, whatever line 527 set |
| Window.FinalFlow | src/engine/window.rs:524-532 | the corrected flow: a stopped root window ends the event loop; otherwise the control flow is the joined loop states, as written |
| Window.FinalFlowDiffers | src/engine/window.rs:524-532 | the code as written and the corrected flow differ exactly when the root window stopped and the running windows do not ask to exit |
| Window.RootExitLost | src/engine/window.rs:526-532 | when the root window stops while the running windows ask to wait, the code as written keeps waiting instead of exiting |
| Window.WindowInstance.constructor | src/engine/window.rs:97-105 | a new window has no states, runs, has made no calls, and has the default bookkeeping |
| Window.WindowInstance.StartWith | src/engine/window.rs:313-317 | the start state is started and then pushed, with no stack needed and nothing else changed |
| Window.WindowInstance.ProcessTran | src/engine/window.rs:141-171 | the window ends as `Run` says, and the method fails exactly where `process_tran` panics |
| Window.WindowInstance.StopAll | src/engine/window.rs:159-161 | the exit loop empties the stack, stopping each state from the top down |
| Window.WindowInstance.ProcessBatch | src/engine/window.rs:164-168 | the `Vec` loop applies its transitions in order, failing at the first that panics |
| Window.WindowInstance.LoopOnce | src/engine/window.rs:120-138 | `loop_once` leaves the window as `Tick` says, panicking exactly when the top state's transition does |
| Window.WindowInstance.OnWindowEvent | src/engine/window.rs:319-350 | the window records the event as `Seen` says |
| Window.WindowInstance.Updated | src/engine/window.rs:29-31 | only the event mark is cleared |
| Window.WindowManager.constructor | src/engine/window.rs:360-383 | the manager holds only the root window, running its start state, which has been started |
| Window.WindowManager.KeyEvent | src/engine/window.rs:388-401 | after the loop exits nothing changes; otherwise only the window the event is for records it |
| Window.WindowManager.CloseRequested | src/engine/window.rs:407-424 | the window is removed, and the loop exits exactly when it was the root |
| Window.WindowManager.Resized | src/engine/window.rs:469-475 | a window that no longer runs is dropped; every other window and the control flow are unchanged |
| Window.WindowManager.WakeUp | src/engine/window.rs:425-434 | a present window is marked and the loop polls; an absent one changes nothing |
| Window.WindowManager.EventsCleared | src/engine/window.rs:497-536 | idle windows are unchanged and the others have their frame; exactly the halted ones are removed; the control flow is the running windows' joined loop states, even when the root stopped (the Exit of line 527 is overwritten); it fails exactly where a `loop_once` panics |
| Window.WindowManager.FrameAll | src/engine/window.rs:498-531 | the loop over the windows leaves them, `not_running`, the root flag and `f_ls` as `SweepPrefix` says, failing exactly where it panics |
| Window.WindowManager.Frames | src/engine/window.rs:498-531 | the loop, on the windows as values, gives what `SweepPrefix` says for the whole order |

## Left out

- GPU and windowing calls are not modelled: wgpu devices, queues, surfaces, pipelines and shaders, plus winit windows, the cursor and egui. Only the state they read or leave behind is modelled. This includes the GPU setup on `Resumed`, the GPU work on `Resized`, `render_once` and `OverlayView`.
- `Test3DState::load` and `start` are only GPU setup around `MagicLevel::new`, which is modelled as written (`Builder.New`). `Test3DState::render` is modelled through `Magic.MagicLevel.Render` and the egui labels are left out.
- `TestView.TestState.Update`: with Numpad6 held the source creates an overlay window and starts an `OverlayView` in it, whose `start` is `todo!()`, so the update panics. The model gives that panic as `ok == false` but does not model the window it creates first. Moving the cursor back while dragging is a windowing side effect and is not modelled.
- Windows created during an event (`created_windows`) are not modelled; only the overlay window creates any.
- The `|` of `LoopState` and `LoopState::WAIT_ALL` are defined outside the core, so they are the parameters `join` and `waitAll`. Game states are opaque: their `start`/`stop` calls are logged and their `update`/`shadow_update` results are inputs.
- The iteration order of the window `HashMap` is the parameter `order`. `LoopState::POLL` is the parameter `poll`.
- The physics step (rapier's integration and contact detection) is not modelled: the body translation after the step (`stepped`) and the collision events are inputs. Gravity is set to zero by the builders, so it plays no part.
- Trigonometry is not modelled: `acos`, `sin` and `cos` in degrees, and the perspective and look-at matrices, are inputs (`Trig`, `build`). Normalising a vector is not modelled either; the visibility and side tests use signs that normalisation does not change.
- The vertices of a plane (computed by the plane renderer) are the parameter `vertices`.
- `Cameras.CameraController.ProcessMouseMoved`: requires a non-zero window width and height, where the source would divide by zero and later skip the non-finite drag.
- `Cameras.CameraController.ApplyDrag`: the `is_finite` test on the drag is not modelled, because reals are always finite.
- `Cameras.CameraController.UpdateDirection`: f32 rounding, and the NaN `acos` gives on a zero-length heading, are not modelled.
- The shuffle of `level_rooms` uses a random generator, so the shuffled colour order is the parameter `order`.
- Every builder's `add_portal` calls are modelled as a recursion over a table of their arguments, in the source's order.
- The "pf" plane group of `normal_level` is built but not kept, as in the source.
- The staging belt and the `LoadOp`s of the render passes are not modelled. A pass records only its kind, its world, its portal, its depth and the view-projection matrix in the uniform.
- glTF accessor decoding, done by the `gltf` crate, is not modelled: a primitive's attributes arrive decoded. Whether an image's bytes decode is the parameter `decodes`.
- `load_node` uses only each node's own transform, not the product with its parents' transforms; the model does the same.
- `DrawLight` is never called by the renderer and is not modelled.
- The write of the camera uniform into the global buffer at the start of `ModelRenderer::render` is a queue call and is not modelled; the camera uniform itself is.
- `ModelObject.parent` is a `u32` in the source and a `nat` here; it is never read.
- `ModelRenderer::new` creates the camera and light uniforms, layouts and pipelines. Only the camera uniform, the pool and the two empty caches are modelled.
- Index counts (`num_elements`) are `nat`. Only the instance count goes through `as u32`, as the renderer casts it (`Renderers.AsU32`).

## Findings

| source | as written | input that shows it | evidently intended | confidence | as-written member | corrected member |
|---|---|---|---|---|---|---|
| src/state/real_view/level.rs:454-466 | the fourth portal pair of `MagicLevel::new` puts its second portal in world 1 (the fat tunnel) at the long tunnel's height, 1 + 2·Z_OFFSET | `MagicLevel::new` with all textures loaded: the portal lands far below the fat tunnel's floor, out of reach of the player there | world 2, the long tunnel, the same world as the third pair's tunnel end | not executed | Builder.NewStranded | Builder.NewGrounded |
| src/state/real_view/level0.rs:314-326 | the third portal pair of `level0` puts its second portal in world 1 (the fat tunnel) at the long tunnel's height, 1 + 2·Z_OFFSET | `level0` with all textures loaded: the fat tunnel gets three portals and the long tunnel one, and that portal lies 14 units below the fat tunnel's floor | world 2, the long tunnel, as the comment above the pair says | not executed | Level0.Level0Stranded | Level0.Level0Grounded |
| src/engine/window.rs:527-532 | when the root window stops during `MainEventsCleared`, line 527 sets `ControlFlow::Exit`, but line 532 overwrites it with the joined loop states | a root window whose states exit while another window's state asks to wait: the loop keeps waiting instead of exiting | the loop exits once the root window stops, as it does for `CloseRequested` | not executed | Window.RootExitLost | Window.FinalFlow |

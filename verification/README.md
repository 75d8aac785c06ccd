# A Dafny model of the world engine's terrain painter, tile store, actor physics and world bookkeeping

This project models the deterministic core of a small JavaScript tile-world
engine in Dafny and proves properties of the model:

- **Terrain painting** (`TilesetTerrain`, `terrain.dfy`, `terrain_patterns.dfy`).
  - A brush paints every cell whose noise reaches the brush height.
  - Each painted cell is classified by which of its eight neighbours are "full". A full cell is one that, together with all eight of its own neighbours, reaches the height.
  - The classification is a fixed decision table. It chooses a centre floor, floor edges, inner and outer corners, and up to three wall columns.
  - Wall columns are extruded downward and block on all four sides. Floor pieces block on the sides their role names, and only under a solid brush.
  - The brush loop paints every brush from the running "last layer" to its own layer. It stops after the first brush that lies lower than the one before it.
- **Tile store** (`Tileset`, `tile_grid.dfy`).
  - The store is a layers × columns × rows grid whose cells start as the empty list.
  - `tile_get` throws on a missing layer and returns `null` on a missing column or cell.
  - `tile_set` overwrites one cell, and the last write wins.
- **Actor physics** (`Actor`, `kinematics.dfy`).
  - `velocity_impulse` and `acceleration` start the update timer if it is not running. `acceleration` also chooses the animation row.
  - Each `update_velocity` tick:
    - adds the acceleration to the velocity;
    - moves by half the velocity;
    - loses that half times the friction;
    - sleeps, with the velocity zeroed, once both components are within 0.01.
- **World bookkeeping** (`World`, `world.dfy`).
  - the data registries;
  - the map grid of `spawn_map_group`: for each cell, the first template whose inclusive temperature range holds;
  - the first-match lookup `map_at_grid`;
  - `spawn_actor_player`;
  - the index of spawn positions built by `load`.
- **Helpers** (`geometry.dfy`).
  - The two differing versions of `vec2ang`.
  - `intersects`, `vector`, `random_range` and the index chosen by `get_random`.
- **Brush and tile tables of the default world and the LPC mod** (`noise_bands.dfy`, `tile_tables.dfy`, `lpc_tileset.dfy`).
  - The noise-band predicates.
  - `tileset_floor_terrain`, `tileset_floor_road` and `tileset_wall_1` to `tileset_wall_4`.
  - `tileset_floor(left, top)` and `lpc_tileset`.

The model works with exact reals instead of floating point. Noise (`Math.sin` of the position and the seed) and `Math.random()` samples are parameters. `this.neighbors`, which the painter calls but which is not part of this model, is an uninterpreted function from a cell and an index 0..7 to a cell.

Three facts of the code shape the wall and floor model:

- A wall column of length `L` writes `L + 1` tiles, top piece to bottom piece. It writes nothing when `L < 1`.
- No "single" variant exists for short walls.
- The painter never emits the `single` floor role.

## Model

| member | source | states |
|---|---|---|
| Geometry.AngleOfDominant | js/engine/init.js:69-81 | `undefined` exactly for the zero vector; otherwise an angle code whose direction is at least as aligned with the vector as any other, with positive heading; a tie between the axes resolves to the horizontal direction |
| Geometry.DominantOnAxis | js/engine/init.js:72-79 | a vector on one axis gets the angle of that axis and sign (right 1, left 3, down 2, up 0) |
| Geometry.AngleOfStrict | js/engine/common.js:17-28 | an answer is the unique strictly best-aligned direction; `undefined` exactly when the axes tie, zero vector included |
| Geometry.StrictGuards | js/engine/common.js:19-26 | each of the four guards holds exactly when its angle is returned, so at most one guard holds |
| Geometry.StrictIsUniqueBest | js/engine/common.js:17-28 | a direction is strictly best aligned exactly when this version returns it |
| Geometry.AngleVersionsAgree | js/engine/common.js:27 | the two versions agree whenever the strict one answers; they differ exactly on non-zero diagonal ties |
| Geometry.IntersectsMeansCommonPoint | js/engine/init.js:84-86 | for well-formed boxes the test holds exactly when the closed boxes share a point (common.js:31-33 is the same test) |
| Geometry.IntersectsSymmetricReflexive | js/engine/common.js:31-33 | the test is symmetric, reflexive on well-formed boxes, and counts boxes that touch along an edge |
| Geometry.Vector | js/engine/init.js:64-66 | x, y and z are each defined exactly when the array has at least one, two or three entries, and each defined component is the array's entry at that position |
| Geometry.RandomRange | js/engine/init.js:59-61 | for a sample in [0, 1) and `min <= max`, the result lies in [min, max] (common.js:7-9 is identical) |
| Geometry.RandomIndex | js/engine/common.js:52-58 | for a sample in [0, 1) the index lies in [0, length) for a non-empty array |
| Geometry.GetRandom | js/engine/init.js:105-111 | the result is defined exactly for a non-empty array, and is then one of its elements |
| TileGrid.Init | js/engine/tileset.js:19-27 | every cell of the layers × scale_x × scale_y block reads back as the empty list, a missing row of an existing column as `null`, and the store is well formed |
| TileGrid.TileGet | js/engine/tileset.js:64-69 | throws exactly when the layer is missing; `null` exactly when the column or cell is missing |
| TileGrid.TileSet | js/engine/tileset.js:72-77 | succeeds exactly when the layer and column exist; then the cell reads back the tile and no other cell changes |
| TileGrid.LastWriteWins | js/engine/tileset.js:71-73 | two writes to one cell equal the second write alone |
| TileGrid.UnwrittenCellIsEmptyList | js/engine/tileset.js:64-69 | an initialised cell that no write aims at still reads as the empty list, not `null`, after any run of writes |
| TileGrid.LastWriteAt | js/engine/tileset.js:72-73 | the reference "last tile written to a cell": absent exactly when no write aims at the cell, otherwise one of the writes to it |
| TileGrid.ApplyAllLastWrite | js/engine/tileset.js:72-73 | after a run of writes every cell shows its last written tile, and unwritten cells read as before |
| TileGrid.ApplyAllSucceeds | js/engine/tileset.js:72-73 | a run of writes succeeds exactly when every write aims at an existing column, and keeps the dimensions |
| TileGrid.ApplyAll | js/engine/tileset.js:72-73 | a run of `tile_set` calls in order, `None` when one throws; ApplyAllLastWrite and ApplyAllSucceeds relate it to the reference LastWriteAt and to the columns the writes aim at |
| TileGrid.ApplyUntilThrow | js/engine/tileset.js:72-73 | the store a run of `tile_set` calls leaves when one throws: exactly the writes before the first write aimed at a missing layer or column are made, that write and all later ones are not, and with no throw it is ApplyAll's result |
| TileGrid.ApplyUntilThrowKeepsEarlierWrites | js/engine/tileset.js:72-73 | after a run that throws, each cell shows the last tile written to it before the throw, and a cell no earlier write touched reads as before |
| Terrain.FloorCollisionSides | js/engine/tileset_terrain.js:33-46 | side k of a floor tile blocks exactly when the brush is solid and the role is bounded on side k |
| Terrain.OpenFloorRoles | js/engine/tileset_terrain.js:35-46 | centre and outer-corner tiles never block |
| Terrain.FloorCollisions | js/engine/tileset_terrain.js:32-46 | the four collision sides `generate_terrain_set_tile_floor` records for a role; FloorCollisionSides and OpenFloorRoles say which role blocks which side |
| Terrain.WallColumnShape | js/engine/tileset_terrain.js:57-97 | nothing unless solid and `length >= 1`; else `length + 1` fully blocking tiles on the layer in rows y..y+length, top piece first, bottom piece last, middle pieces between, all in the column named by the direction |
| Terrain.WallColumn | js/engine/tileset_terrain.js:57-97 | the writes of `generate_terrain_set_tile_wall` for one column; WallColumnShape states their number, rows and pieces, and ExtrudeWall is the loop form |
| Terrain.ExtrudeWall | js/engine/tileset_terrain.js:64-97 | the downward loop writes exactly the wall column |
| Terrain.TileFullExactly | js/engine/tileset_terrain.js:101-117 | a cell is full exactly when it and all eight neighbours reach the height; a low cell is never full |
| Terrain.TileFull | js/engine/tileset_terrain.js:101-117 | `generate_terrain_get_tile_full`: the cell's own noise test, then the eight neighbour tests; TileFullExactly states when it holds |
| Terrain.KeepMembers | js/engine/tileset_terrain.js:147-184 | trying the calls in order keeps exactly those whose condition holds |
| Terrain.ConditionalDrawsListed | js/engine/tileset_terrain.js:149-184 | every call that can fire for a cell that is not full is one of the fifteen conditional calls |
| Terrain.ClassifyMember | js/engine/tileset_terrain.js:144-184 | a cell draws a floor role or wall column exactly when that draw's condition holds |
| Terrain.Classify | js/engine/tileset_terrain.js:144-184 | the draws of one cell in the order the painter makes them; ClassifyMember, DrawCellExpandsClassify and the TerrainPatterns lemmas state which draws it holds |
| Terrain.CellWrites | js/engine/tileset_terrain.js:124 | a scan position below the brush height writes nothing |
| Terrain.DrawCellBounds | js/engine/tileset_terrain.js:144-184 | every write of a cell lands on the end layer, in its column, between the drawing row and the lowest row a wall reaches |
| Terrain.CellWriteBounds | js/engine/tileset_terrain.js:127-128 | the writes of scan position (x, y) lie in column x from row `y - layer_end` down by at most the wall length |
| Terrain.DrawnAtRow | js/engine/tileset_terrain.js:127-128 | laying a cell out from row 0 and moving it down to the drawing row is drawing it at that row |
| Terrain.EmitAllExpandsKept | js/engine/tileset_terrain.js:147-184 | trying the calls one by one writes what expanding the calls that fire writes |
| Terrain.DrawCellExpandsClassify | js/engine/tileset_terrain.js:144-184 | a cell writes exactly the tiles of its classified draws, in the code's order, each wall with length `layer_end - layer_start - 1` |
| Terrain.FullCellWritesCenter | js/engine/tileset_terrain.js:144-146 | a full cell writes exactly one non-blocking centre floor tile at its drawing row |
| Terrain.ScanColumnExactly | js/engine/tileset_terrain.js:123-124 | a column's writes are exactly the writes of its scanned rows |
| Terrain.ScanGridExactly | js/engine/tileset_terrain.js:122 | the grid's writes are exactly the writes of its scanned columns |
| Terrain.GenerateTerrainExactly | js/engine/tileset_terrain.js:120-189 | the painter writes exactly the writes of scanned cells (x < scale_x, y < scale_y + layer_end) whose noise reaches the height |
| Terrain.GenerateTerrain | js/engine/tileset_terrain.js:120-189 | `generate_terrain(layer_start, layer_end, brush)` as its `tile_set` calls in the order made; GenerateTerrainExactly and GeneratedWriteBounds state which writes it makes and where they land |
| Terrain.GeneratedWriteBounds | js/engine/tileset_terrain.js:120-189 | every painted tile lands on the end layer, in a scanned column, from row `-layer_end` to above `scale_y` plus the wall reach |
| Terrain.PaintFits | js/engine/tileset_terrain.js:146 | painting into a fresh store succeeds whenever the end layer exists |
| Terrain.PlanBrushes | js/engine/tileset_terrain.js:196-208 | brush i is painted from the previous end layer (0 first) to floor(height · layers); a brush below the previous one is still painted, and then the loop stops |
| Terrain.StartsNonDecreasing | js/engine/tileset_terrain.js:196-205 | the running last layer starts at 0 and never decreases over the painted brushes |
| Terrain.Generate | js/engine/tileset_terrain.js:192-209 | the brush plan as above; the writes are the planned calls' writes concatenated in plan order, so with `tile_set` keeping the last write a later brush wins a shared cell; each write is on a planned end layer |
| Terrain.PaintPlanned | js/engine/tileset_terrain.js:197-200 | painting the plan gives the calls' writes one call after another, in plan order, and so exactly the writes some planned call makes |
| Terrain.PlannedWrites | js/engine/tileset_terrain.js:197-200 | the concatenated writes of the calls contain exactly the writes of each call, each on its call's end layer |
| TerrainPatterns.FullCellDrawsOnlyCenter | js/engine/tileset_terrain.js:144-146 | a full cell draws the centre floor and nothing else |
| TerrainPatterns.CenterWallExcludesSideWalls | js/engine/tileset_terrain.js:149-154 | the centre wall fires exactly when the north neighbour is full, the side walls exactly on their diagonals with an open north, and the centre wall excludes both |
| TerrainPatterns.SideWallsCoexist | js/engine/tileset_terrain.js:149-154 | both side walls are drawn when north is open and both northern diagonals are full |
| TerrainPatterns.DrawnTogether | js/engine/tileset_terrain.js:157-184 | two floor roles are drawn together exactly when both conditions hold |
| TerrainPatterns.InnerCornersExclusive | js/engine/tileset_terrain.js:167-174 | at most one inner corner per cell |
| TerrainPatterns.InnerCornerExcludesEdges | js/engine/tileset_terrain.js:157-174 | an inner corner never comes with an edge |
| TerrainPatterns.EdgeAxesExclusive | js/engine/tileset_terrain.js:157-164 | a top or bottom edge never comes with a left or right edge |
| TerrainPatterns.TopAndBottomCoexist | js/engine/tileset_terrain.js:157-162 | a cell between full north and south neighbours, open east and west, gets both top and bottom edges |
| TerrainPatterns.OuterCornersCoexist | js/engine/tileset_terrain.js:177-184 | with only the diagonals full, all four outer corners are drawn |
| TerrainPatterns.FiresMirror | js/engine/tileset_terrain.js:149-184 | each condition of the table, on the mirrored neighbourhood, is the mirrored draw's condition |
| TerrainPatterns.ClassifyMirror | js/engine/tileset_terrain.js:144-184 | mirroring the neighbourhood left-to-right mirrors every drawn role and flips the wall directions |
| TerrainPatterns.FiresRotation | js/engine/tileset_terrain.js:157-184 | each floor condition turns with the map a quarter clockwise |
| TerrainPatterns.FloorRotation | js/engine/tileset_terrain.js:144-184 | the floor roles drawn for the turned neighbourhood are the turned roles of the original |
| Kinematics.EnsureTimer | js/engine/actor.js:73-74 | afterwards the timer runs; a new one is started only if none was running; nothing else changes |
| Kinematics.Impulse | js/engine/actor.js:69-75 | adds (x, y) to the velocity and starts at most one timer, none if one runs; position, acceleration and animation unchanged |
| Kinematics.ImpulseTwice | js/engine/actor.js:69-75 | two impulses equal one impulse of their sum and start at most one timer together |
| Kinematics.ChooseAnimation | js/engine/actor.js:92-107 | new x, then new y, then old x, then old y picks the row (right 1, left 3, down 2, up 0); new components animate at their magnitude, old ones at idle speed; all zero keeps the animation |
| Kinematics.Accelerate | js/engine/actor.js:78-108 | a NaN argument keeps its component, the timer runs afterwards, and the animation follows the new or previous acceleration |
| Kinematics.AnimationRowIsHeading | js/engine/actor.js:92-107 | for an acceleration on one axis the row is the direction `vec2ang` gives it |
| Kinematics.Tick | js/engine/actor.js:111-138 | the position moves by half of velocity plus acceleration; the velocity becomes that sum times (1 − friction/2), or zero with the timer stopped exactly when both components are within 0.01 |
| Kinematics.Step | js/engine/actor.js:110-138 | one timer tick: `update_velocity` runs only while the timer is active; StepWithoutAcceleration states its effect without acceleration |
| Kinematics.Run | js/engine/actor.js:110-138 | n timer ticks in a row; AsleepStays, RunLowersSpeed, RunRestsAtZero and SleepsEventually state how speed evolves over them |
| Kinematics.DampIsScale | js/engine/actor.js:118-129 | losing half the velocity times the friction scales it by (1 − friction/2) |
| Kinematics.FrictionDamping | js/engine/actor.js:116-129 | for friction in [0, 2] the damped velocity keeps its sign and does not grow; above 2 a non-zero velocity reverses |
| Kinematics.SlowWalkSleeps | js/engine/actor.js:131-137 | a standing actor whose acceleration is within the threshold is put to sleep by its first tick |
| Kinematics.TickLowersSpeed | js/engine/actor.js:111-138 | without acceleration a tick that does not sleep lowers the speed by a fixed positive margin |
| Kinematics.AsleepStays | js/engine/actor.js:135-136 | an actor whose timer is stopped is not changed by the engine |
| Kinematics.StepWithoutAcceleration | js/engine/actor.js:111-138 | one step without acceleration either sleeps at zero velocity or lowers the speed by the margin |
| Kinematics.RunLowersSpeed | js/engine/actor.js:110-138 | after n steps without acceleration an awake actor has lost at least n margins of speed |
| Kinematics.RunRestsAtZero | js/engine/actor.js:132-136 | an actor that went to sleep within n steps has zero velocity |
| Kinematics.SleepsEventually | js/engine/actor.js:110-138 | without acceleration and with friction in (0, 4), the timer stops after finitely many ticks, with the velocity at zero |
| World.Register | js/engine/world.js:72-74 | the name maps to the new settings, the names are the old ones plus it, and other entries keep their settings |
| World.RegisterOverwrites | js/engine/world.js:77-79 | registering a name twice keeps only the second settings; registrations of distinct names commute |
| World.SpawnActorPlayer | js/engine/world.js:103-109 | appends exactly one player, with the camera on and the registered settings (undefined for an unknown name) |
| World.SpawnAfterRegister | js/engine/world.js:105-108 | a player spawned after its data was registered gets exactly that data |
| World.FirstTemplateFrom | js/engine/world.js:88-96 | the choice is the first template whose inclusive range holds; the scan throws at an unregistered name reached first; no choice exactly when every template is registered and out of range |
| World.FirstMatchWins | js/engine/world.js:88-96 | with overlapping ranges, the earliest template that holds is chosen |
| World.ProgressStep | js/engine/world.js:86-97 | visiting one cell keeps the loop invariant: the maps so far are one per earlier cell with a template, in visiting order |
| World.SpawnMapGroup | js/engine/world.js:82-100 | appends one map per grid cell with a template, in x-major order, each built from its cell's template with z = height; the result is partial exactly when an unregistered name is reached, and then it holds the map of every cell visited before the first such cell and no map of that cell or any later one |
| World.MapAtGrid | js/engine/world.js:112-119 | the first map whose grid matches on x, y and z, or `null` exactly when none does |
| World.LookupFindsSpawnedMap | js/engine/world.js:112-119 | after a group spawns into a world with no map at its height, the lookup at a cell with a template finds that cell's map |
| World.Centre | js/engine/world.js:45 | the key of a tile is the midpoint of its rectangle |
| World.IndexIsLastVisit | js/engine/world.js:40-51 | a centre is indexed exactly when the last tile with that centre is a spawn tile, and then with that tile's layer |
| World.SpawnIndex | js/engine/world.js:42-51 | the layer-by-layer, tile-by-tile loop builds the index of the visits in order |
| World.IndexLayer | js/engine/world.js:44-50 | the inner loop over one layer extends the index by that layer's visits |
| World.CandidateIsUncoveredSpawnTile | js/engine/world.js:53-57 | every collected position is the centre of a spawn tile of its map and layer that no later tile covers |
| World.SpawnAngleAsWritten | js/engine/world.js:62 | the written spawn angle lies in 0..4 |
| World.SpawnAngleLeavesRange | js/engine/world.js:62 | a sample of 0.8 or more gives angle 4, which is no angle code |
| World.SpawnAngle | js/engine/world.js:62 | the corrected spawn angle is one of the four angle codes |
| World.SpawnAngleCoversDirections | js/engine/world.js:62 | each direction is the corrected angle for a quarter of the samples |
| NoiseBands.FloorBandOf | js/default.js:32-53 | the four floor bands are disjoint and cover (0, 1]: a value in that range lies in exactly one band, any other value in none |
| NoiseBands.PathBands | js/default.js:56-65 | the path bands are disjoint, together cover exactly (0, 0.1], and lie within the first floor band |
| NoiseBands.FloorBand | js/default.js:32-53 | the four `noise_tile_floor_*` gates as bands (0, 0.25], (0.25, 0.5], (0.5, 0.75], (0.75, 1]; FloorBandOf proves they partition (0, 1] |
| NoiseBands.PathBand | js/default.js:56-65 | the two `noise_tile_path_*` gates as bands (0, 0.05] and (0.05, 0.1]; PathBands proves their shape |
| NoiseBands.CaveGates | js/default.js:67-79 | `cave_true` and `cave_false` are complements and keep one answer along a column and across layers |
| NoiseBands.DecayShrinks | js/default.js:21 | the island threshold 0.9875 to the power of the layer is positive and shrinks with the layer |
| NoiseBands.IslandsThinOut | js/default.js:19-24 | a cell the terrain brush paints on a layer is also painted on every lower layer |
| NoiseBands.UpperTerrainAvoidsRoad | js/mods/default/tileset_lpc.js:3-8 | above layer 1 painted terrain has road noise below 0.975 and terrain noise at most 0.9875 squared |
| NoiseBands.BrushTerrain | js/default.js:19-24 | `noise_brush_terrain`: up to 0.9995 on layers 0 and 1, above that at most 0.9875^layer with road noise below 0.975; IslandsThinOut and UpperTerrainAvoidsRoad state its consequences |
| NoiseBands.BrushRoad | js/default.js:27-29 | `noise_brush_road`: road noise of at least 0.7; the terrain brush above layer 1 may paint such a cell too, but UpperTerrainAvoidsRoad proves it stays off the road's core, where road noise reaches 0.975 |
| TileTables.CenterPicksOneBand | js/default.js:86-91 | for noise in (0, 1] exactly one centre candidate passes its gate, the one of the band holding the noise; none passes elsewhere |
| TileTables.EdgeOffersPathBelowTenth | js/default.js:92-150 | an edge always offers its plain piece, plus one path or gravel piece exactly where the noise lies in (0, 0.1] |
| TileTables.TerrainFlags | js/default.js:82-119 | band-gated centres carry [kind, "floor"], path candidates [kind, "path"], ungated pieces no flags |
| TileTables.Eligible | js/default.js:86-94 | the candidates of a table entry whose `noise` gate admits a cell, kept in table order, and only those |
| TileTables.FloorTerrain | js/default.js:82-119 | `tileset_floor_terrain(x, y, kind)` by role; TerrainFlags, CenterPicksOneBand, EdgeOffersPathBelowTenth and TerrainTableOnSheet state its entries |
| TileTables.RoadFlags | js/default.js:122-161 | road centres carry [kind, "floor", "road"] and gravel carries [kind, "gravel"] |
| TileTables.FloorRoad | js/default.js:122-161 | `tileset_floor_road(x, y, kind)` by role; RoadFlags and RoadTableOnSheet state its entries |
| TileTables.Sheet | js/default/terrain.js:2-20 | the anchor is (3·left, 6·top); centre has 4 cells, single 2, every other role 1, all within the 3 × 6 block |
| TileTables.SheetCoversBlock | js/default/terrain.js:6-19 | every cell of the block belongs to some role's candidate |
| TileTables.SheetEntriesDistinct | js/default/terrain.js:6-19 | no cell belongs to two candidates, so the 18 cells of the 14 roles cover the block exactly once |
| TileTables.TerrainTableOnSheet | js/default.js:82-119 | the terrain table uses the block's cells; the top, left and right edges put the two single cells first; there is no single entry |
| TileTables.RoadTableOnSheet | js/default.js:122-161 | the road table uses the same cells, with the single cells after each edge's own cell |
| TileTables.Walls | js/default.js:164-245 | left, middle and right have exactly N courses; side columns are plain; walls of 3 or 4 courses gate the middle of their two lowest courses on the cave noise, the mouth taken from column x |
| TileTables.TilesetWall | js/default.js:164-245 | `tileset_wall_N(x, y, kind)` for N in 1..4, with wall and cave flags; Walls, WallCoursesDescend and WallCoursesGated state its shape |
| TileTables.WallCoursesDescend | js/default.js:164-245 | the courses run down the sheet from the anchor row, within four rows of it |
| TileTables.WallCoursesGated | js/default.js:199-245 | every middle course offers exactly one eligible candidate: the cave mouth exactly where `cave_true` holds, the same all down the column |
| TileTables.CaveMouthFlags | js/default.js:199-245 | only the mouth of the lowest course carries the cave flags |
| LpcTileset.LpcWalls | js/mods/default/tileset_lpc.js:109-176 | the wall tables exist exactly for height at least 1, with min(height, 4) courses in each column |
| LpcTileset.LpcFloorTags | js/mods/default/tileset_lpc.js:72-73 | flagged floor candidates carry the flags plus one tag: "solid" exactly on a cliff; off a cliff, paths say "path" on raised ground and "gravel" otherwise |
| LpcTileset.LpcFloor | js/mods/default/tileset_lpc.js:66-107 | the `floor_*` entries of `lpc_tileset` by role; LpcFloorTags and LpcFloorMatchesDefault state their tags and their agreement with the default table |
| LpcTileset.LpcFloorMatchesDefault | js/mods/default/tileset_lpc.js:66-107 | off a cliff and above ground the LPC floor of a single-flag kind is the default terrain table |
| LpcTileset.LpcWallsMatchDefault | js/mods/default/tileset_lpc.js:110-176 | the LPC walls are those of `tileset_wall_N` for the capped height, except that the cave mouth adds "cave_in" or "cave_out" |
| LpcTileset.LpcCaveCourses | js/mods/default/tileset_lpc.js:125-144 | every middle course of the LPC walls has exactly one eligible candidate, the cave mouth exactly where `cave_true` holds |

## Findings

| source | as written | input that shows it | evidently intended | confidence | as-written member | corrected member |
|---|---|---|---|---|---|---|
| js/engine/world.js:62 | `Math.floor(Math.random() * 5)` picks the facing of a spawned actor in 0..4 | a sample of 0.8 or more gives 4; angle codes are 0 up, 1 right, 2 down, 3 left (js/engine/init.js:71) | `Math.floor(Math.random() * 4)`, one of the four directions | medium, not executed: `actor.move` is not part of this model, so what it does with 4 is unknown | World.SpawnAngleAsWritten, World.SpawnAngleLeavesRange | World.SpawnAngle, World.SpawnAngleCoversDirections |

## Left out

- Noise and randomness.
  - `TilesetTerrain.noise`, `noise_pattern_terrain` and `noise_pattern_road` are function parameters (`Field.noise`, `noise`, `terrain`/`road` values).
  - The temperature of `spawn_map_group` is a function parameter.
  - `Math.random()` is a `sample` parameter in [0, 1). `WORLD_SEED` disappears into those functions.
- Floating point is modelled as exact reals. `0.9875 ** layer` is an exact power.
- `this.neighbors` is not part of this model; it is an uninterpreted function.
- The image chosen by `get_random(brush.tiles_floor[type])` and `brush.tiles_wall[type]` is not recorded. A painted tile carries its role and collision sides.
  - The engine's `get_random` picks uniformly and never consults a candidate's `noise` gate or `flags`. The gate lemmas say which candidates a gate admits; they do not claim the engine filters by them.
  - The key names of the shown tables (`edge_top`, `corner_in_top_left`, `floor_edge_top`, `wall_left`) differ from the role names the painter looks up (`top`, `in_top_left`). The model indexes tables by role and does not model that lookup.
- Canvas, DOM and CSS are not part of this model:
  - the `drawImage` call in `tile_set`, including the `vector(tile.tile)` it evaluates after the store is written;
  - the tileset and actor elements;
  - `set_animation`, which is recorded only as the requested row and speed;
  - `set_position` styling, `World` elements and tint, `html_*`, `px`, `get_search`.
- `setInterval`/`clearInterval` are an `active` flag plus a count of timers started. Real timing is not modelled.
- Kinematics.Accelerate: a NaN argument is `None`. Infinities and other non-finite reals are not modelled.
- Kinematics.SleepsEventually: the engine's sleep promise is proved for friction in (0, 4). At friction 0 or 4 the velocity never shrinks, so no sleep is claimed.
- `for..in` keys are strings in JavaScript. The model uses numbers for the layer recorded in `pos_layer` and for the map index of a spawn position.
- The `Map` and `ActorPlayer` constructors are not part of this model. A spawned map is its template and grid position; a spawned player is its settings and camera flag.
- The random choice among spawn positions in `load` (`get_random(positions)`) and the `map_set`/`move` calls are not modelled. `World.Candidates` is the set of positions, without the order of `for..in`. An actor with no candidate position makes `load` throw; that is not modelled.
- Geometry.GetRandom: only the array case is modelled. A non-object argument, which `get_random` returns unchanged, is not.
- `lpc_tileset` and `tileset_wall_N` take whole-number heights. A fractional height is not modelled.
- `tileset_lpc.js` defines the same band predicates as `default.js` under `lpc_` names, over its own noise functions. They are defined once, in `NoiseBands`.
- These do not appear in the engine code shown and are not modelled:
  - flag-table friction lookup;
  - climbable or solid layer resolution;
  - region transport;
  - keyboard input (`actor_player.js`);
  - the mod configuration and registration scripts.

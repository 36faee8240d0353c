# Procedural forest terrain: a Dafny model

This project models the core of an isometric exploration game. The game
generates an endless forest chunk by chunk around a moving camera, and the
player steers a character through it. The model covers these parts:

- **Terrain classification** (`terrain_generation.dfy`). This covers the
  threshold chain that turns a density into a feature label, the
  classification tail of the stand-alone quantum variant, and the per-tile
  choice between the phase and the Y-rotation variant.
- **Coordinates and collision geometry** (`utils.dfy`). This covers the
  isometric projection, the screen-to-chunk addressing with its truncation
  toward zero, the collision set and the per-category hitboxes.
- **Chunk generation and streaming** (`chunks.dfy`):
  - the element choice for a tile, in quantum mode or the seeded random
    fallback;
  - the tile-by-tile construction of a chunk's four layers (ground, objects,
    walls, coins);
  - the window of 9 x 9 chunks kept resident around the centre chunk.
- **The character** (`character.dfy`). This covers the texture fallback
  rule, the animation state machine and the wave-mode look.
- **The game loop's state machines** (`game_rules.dfy`). This covers quantum
  energy, the collision cooldown, health, the turn direction set by the keys,
  the terrain-mode toggle, and the restart.
- **The game window** (`game.dfy`). A class holds the resident chunk map,
  the chunks whose sprites are in the scene, the camera, the counters and the
  character. Its methods are the event handlers: setup, update, key press,
  key release and take damage. The class invariant ties the resident set to
  the window around the camera and keeps the counters in range.

The tile loop of a chunk reads its elements through a function value, a
`Generator`. For the game's chunks this is `GenerateTerrainElement` bound to
the world's field, the mode and the chunk's own random stream
(`ChunkGenerator`). The lemmas about the loop therefore hold whichever
element source it reads.

Each imperative routine is a method proved against a function. Examples:
`CreateChunk` is proved against `ChunkSpec`, `UpdateChunks` against
`Streamed`, and `UpdateAnimation` against `AnimStep`. The properties are
proved as lemmas about those functions.

The trigonometric density producers, the chunk seed function and the
random stream a seed starts are not re-implemented: they are parameters, the
`Field` and `World` datatypes. The game's remaining floating-point
arithmetic (the density blend, the hitboxes, the screen-to-chunk division
and the energy counter) is modelled with exact reals; "## Left out" lists
each.

Where the code and its evident intent differ, the model follows the code.
The one exception is the restart, listed under "## Findings": the game
class uses the corrected restart, and the restart as written is modelled
beside it. The places where the model follows the code are:

- The chunk address of a screen point is truncated toward zero, not
  floored, so chunk column 0 is twice as wide as the others.
- Evicting a chunk only deletes its map entry; its sprites stay in the
  scene. This is why `drawn` only grows between restarts.
- A chunk that is re-created after eviction is made in the mode in force at
  that moment. So it matches the first copy only if the terrain mode and the
  wave flag are the same.
- The centre chunk is computed in screen units: the camera centre is
  divided by the chunk's screen extent, 1024 x 512 pixels. That value is
  then used as a chunk address in tile space, where chunk (cx, cy) covers
  tiles 16cx .. 16cx + 15. Because the projection is isometric, the window
  is generally not the chunks around what the camera shows. `CentreChunk`
  and `Window` keep this as written.

## Model

| member | source | states |
|---|---|---|
| TerrainGeneration.TerrainTypeFromDensity | src/terrain_generation.py:86-103 | Empty below 0.35, a small bush from 0.80 up, and otherwise always one of the chain's labels |
| TerrainGeneration.DensityClassifierIsBandTable | src/terrain_generation.py:86-103 | The if-chain equals the table lookup "label of the band the density falls in" over cut points 0.35 .. 0.80 |
| TerrainGeneration.DensityBandExact | src/terrain_generation.py:86-103 | Each label is returned if and only if the density lies in its half-open band |
| TerrainGeneration.DensityBandMonotone | src/terrain_generation.py:86-103 | A larger density never gets a lower band; once the top band is reached, every larger density is a small bush |
| TerrainGeneration.BandIsInterval | src/terrain_generation.py:86-103 | With ascending cut points, the band index puts the density between the cut points around it |
| TerrainGeneration.BandIsUnique | src/terrain_generation.py:86-103 | The bands partition the reals: a density lies in no band but its own |
| TerrainGeneration.BandMonotone | src/terrain_generation.py:86-103 | The band index is monotone in the density |
| TerrainGeneration.Blend | src/terrain_generation.py:33 | The stand-alone variant's density: (density + 0.6 variation) / 1.6; `BlendBetween` keeps it in [0, 1] |
| TerrainGeneration.BlendBetween | src/terrain_generation.py:33 | The weighted blend of density and variation lies between the two, so it stays in [0, 1] |
| TerrainGeneration.QuantumTerrain | src/terrain_generation.py:6-48 | The stand-alone variant's label for a tile: the blend of the field's density and variation, classified by `QuantumClassify` |
| TerrainGeneration.QuantumClassify | src/terrain_generation.py:35-48 | Empty exactly below 0.75; from 0.87 up, a tall stone exactly when (x + y) % 3 == 0 and a small bush otherwise |
| TerrainGeneration.QuantumClassifierIsBandTable | src/terrain_generation.py:35-48 | The quantum chain is its band table over 0.75 .. 0.87, with the coordinate tie-break deciding the top band |
| TerrainGeneration.HybridVariant | src/terrain_generation.py:72-83 | The variant a tile uses: out of wave mode the phase variant when (x + y) mod 7 < 5; in wave mode the Y-rotation variant when (x * y) mod 5 < 3; see `CalmModeFiveInSeven` and `WaveModePeriodic` |
| TerrainGeneration.HybridTerrain | src/terrain_generation.py:72-83 | The hybrid label is always one the density chain can return, whichever variant is chosen |
| TerrainGeneration.CalmModeFiveInSeven | src/terrain_generation.py:74-78 | Out of wave mode, exactly 5 of any 7 consecutive tiles of a row use the phase variant, negative tiles included |
| TerrainGeneration.WaveModePeriodic | src/terrain_generation.py:79-83 | In wave mode the variant choice has period 5 in x and y, and rows or columns divisible by 5 always use the Y-rotation variant |
| Utils.IsoToScreen | src/utils.py:6-10 | The isometric projection of a tile: half a tile width per unit of x - y, half a tile height per unit of x + y; its inverse is proved in `IsoToScreenRoundTrip` |
| Utils.TruncateTowardZero | src/utils.py:16-17 | Python's `int()` of a real: the floor for non-negative values and the ceiling for negative ones; its bounds are `TruncateBounds` |
| Utils.ScreenToChunk | src/utils.py:13-18 | The chunk address of a screen point: each coordinate divided by the chunk's screen extent (1024 x 512) and truncated toward zero; characterised by `ScreenToChunkBounds` and `ScreenChunkColumn` |
| Utils.IsoToScreenRoundTrip | src/utils.py:6-10 | Every tile is recovered from its screen projection by the inverse map |
| Utils.ScreenToIsoRoundTrip | src/utils.py:6-10 | A screen point that the inverse maps to a tile is that tile's projection |
| Utils.IsoToScreenInjective | src/utils.py:6-10 | Distinct tiles never share a screen point |
| Utils.TruncateBounds | src/utils.py:16-17 | `int()` of a real keeps its sign and drops less than one unit of magnitude (rounds toward zero) |
| Utils.ScreenToChunkBounds | src/utils.py:13-18 | Each chunk coordinate has the sign of its screen coordinate, and its magnitude counts the whole 1024-wide (512-high) chunk extents |
| Utils.ScreenChunkColumn | src/utils.py:13-18 | Full characterisation of the chunk column: column 0 is (-1024, 1024), column k > 0 is [1024k, 1024(k+1)), column k < 0 is (1024(k-1), 1024k] |
| Utils.HasCollision | src/utils.py:75-82 | A name collides exactly when it is one of the ten listed colliding names (six trees, two stones, two logs); over the palette this is `FeatureCollision` |
| Utils.FeatureCollision | src/utils.py:75-82 | Over the feature palette, exactly the thin tree and the small bush are walkable |
| Utils.NoTreeWithoutTr | src/utils.py:38 | A name without the letter pair "tr" does not contain "tree" |
| Utils.HitboxForElement | src/utils.py:33-72 | Every hitbox is a positive-size rectangle symmetric about x = 0; any name containing "tree" gets the trunk box, and names outside the special categories get the base box |
| Utils.FeatureHitboxCategory | src/utils.py:33-72 | A feature's name contains "tree" exactly for the seven tree features; the small bush gets the default box |
| Chunks.RandomTree | src/main.py:228-239 | The tree the second draw picks; equal to its band table by `RandomTreeIsBandTable` |
| Chunks.RandomTreeIsBandTable | src/main.py:228-239 | The random tree choice is the band table over 0.3 / 0.5 / 0.7 / 0.85 |
| Chunks.RandomElement | src/main.py:226-247 | The first draw decides the category (empty from 0.48, bush in [0.43, 0.48), trees below 0.35, stones, logs); two draws are used below 0.43 and one otherwise; what the second draw picks is `RandomElementPicks` |
| Chunks.RandomElementPicks | src/main.py:228-243 | The second draw picks within the category: the tree by `RandomTree`'s band table, stone_tall exactly when it is below 0.7 (stone_large otherwise), log exactly when it is below 0.6 (log_large otherwise) |
| Chunks.GenerateTerrainElement | src/main.py:221-247 | Quantum mode uses no draws and yields a label of the density chain; random mode uses one or two draws |
| Chunks.TileAtIndex | src/main.py:264-267 | The k-th visited tile lies in the chunk's square and has index k |
| Chunks.PlaceTile | src/main.py:269-310 | One step of the tile loop on the partial chunk and the draws used so far, reading the tile's element from the generator (the game's is `ChunkGenerator`); its effect is stated by `PlaceTileEffect`, `PlaceTileStep` and `PlaceTileSound` |
| Chunks.PlaceTileEffect | src/main.py:269-310 | One tile adds exactly one ground entry and at most one wall, object or coin, each under the source's conditions; a new wall holds the element, its projection and its hitbox, a new object the element and its projection, a new coin sits 10 units above the tile; earlier records are kept; a tile without element uses one more draw |
| Chunks.AddTile | src/main.py:266-310 | The loop body builds exactly the tile step `PlaceTile` |
| Chunks.CreateChunk | src/main.py:249-312 | The nested tile loop builds `ChunkSpec`: a value fixed by the address, the mode and the chunk's own seed, never by creation order |
| Chunks.ChunkSpec | src/main.py:249-312 | The chunk made for an address: the tile step over the 256 tiles in x-major order, its elements from `ChunkGenerator`, that is, drawn from the stream the chunk's seed starts; `CreateChunk` builds it and `ChunkGroundIsSquare` and `ChunkLayersSound` state its shape |
| Chunks.GroundLayerAt | src/main.py:264-278 | The ground layer of n tiles has n entries, entry k at tile k and its projection |
| Chunks.PrefixGround | src/main.py:269-278 | The ground layer depends on the tiles alone, not on the elements or draws |
| Chunks.GroundAfter | src/main.py:264-278 | After n tiles the ground layer has one entry per visited tile, in visiting order |
| Chunks.PlaceTileStep | src/main.py:280-310 | One tile step adds at most one record, on that tile, and keeps every layer of the right kind |
| Chunks.PlaceTileSound | src/main.py:280-310 | One tile step keeps the layers located, ordered, exclusive and typed |
| Chunks.PrefixSound | src/main.py:264-310 | Every partial chunk has sound layers |
| Chunks.ChunkGroundIsSquare | src/main.py:264-278 | A chunk has exactly 256 ground entries, one per tile of its 16 x 16 square, in x-major order, each at its tile's projection: no seams and no duplicates |
| Chunks.ChunkLayersSound | src/main.py:280-310 | Every wall holds a textured colliding element with its hitbox and every object a textured walkable one; every record lies in the chunk; no tile has two details, or both a detail and a coin; the converse is `ChunkDetails` |
| Chunks.NewDetailHolds | src/main.py:281-300 | A tile gets one wall (object) record, holding its element, exactly when the element is textured and colliding (walkable) |
| Chunks.LayerOfSound | src/main.py:264-300 | Every record of the layer the tiles' elements call for lies in the chunk, on a tile whose element it holds, and that element is textured and colliding (walls) or walkable (objects) |
| Chunks.LayerOfComplete | src/main.py:264-300 | Every tile whose element is textured and colliding (walkable) has its wall (object) record in the layer |
| Chunks.LayerOf | src/main.py:264-300 | The wall or object layer a sequence of tile elements calls for, in visiting order; characterised by `LayerOfSound` and `LayerOfComplete` |
| Chunks.ChunkElements | src/main.py:221-281 | The 256 elements of a chunk's tiles, each generated where the earlier tiles left the stream |
| Chunks.PlaceTileUsed | src/main.py:280-302 | Tile n - 1 consumes the draws `UsedAfter` counts for it: the generator's draws, plus one coin roll when it has no element |
| Chunks.PrefixUsed | src/main.py:264-310 | The draws a partial chunk has used are those its tiles consumed in order: no element draws in quantum mode, one or two per element in random mode, and in both modes one coin roll per empty tile |
| Chunks.PlaceTileDetails | src/main.py:280-300 | One tile step appends to the walls and objects exactly what the tile's element calls for |
| Chunks.LayerTrace | src/main.py:264-300 | Layers grown tile by tile, each step appending what its tile's element calls for, equal the layer the element sequence describes |
| Chunks.PrefixLayerStep | src/main.py:264-300 | The k-th tile of a chunk appends to its wall and object layers what its element calls for, the element read where the earlier tiles left the stream |
| Chunks.ChunkDetails | src/main.py:249-312 | A chunk's walls and objects are exactly the records its tiles' elements call for, in visiting order; with `LayerOfSound` and `LayerOfComplete`, a tile has a wall (object) if and only if its element is textured and colliding (walkable) |
| Chunks.QuantumChunkDetails | src/main.py:221-300 | In quantum mode a tile has a wall (object) if and only if its hybrid terrain label is textured and colliding (walkable), and every wall or object on it holds that label |
| Chunks.ThinTreeTileIsBare | src/main.py:280-310 | With the full texture table a thin tree has no texture: its tile gets no detail and no coin |
| Chunks.IntRange | src/main.py:322-323 | The set holds exactly the integers in [lo, hi) |
| Chunks.WindowOffsets | src/main.py:322-323 | The offsets are exactly -4 .. 4 |
| Chunks.Window | src/main.py:321-324 | The set the double loop collects: the centre plus every offset pair in -4 .. 4; characterised by `InWindow` and `WindowSize` |
| Chunks.InWindow | src/main.py:321-324 | A chunk is needed exactly when it is within Chebyshev distance 4 of the centre |
| Chunks.WindowSize | src/main.py:321-324 | The window holds exactly 81 distinct chunks |
| Chunks.ChunksNeeded | src/main.py:321-324 | The double loop collects exactly the window, 81 distinct chunks |
| Chunks.Streamed | src/main.py:326-334 | The resident map after update_chunks: the window's chunks, resident values kept and the others made by the generator; see `StreamedIsWindow` |
| Chunks.StreamedIsWindow | src/main.py:326-334 | After streaming the resident set is the window; resident chunks are kept and missing ones are made afresh |
| Chunks.StreamedByMembership | src/main.py:326-334 | A map with the window's keys that keeps the resident values and makes the rest is the streamed map |
| Chunks.StreamedIdempotent | src/main.py:332-334 | Streaming twice around the same centre changes nothing, even under another generator |
| Chunks.StreamedStable | src/main.py:326-334 | When the resident set already is the window, streaming is a no-op |
| Chunks.WindowShiftByOneColumn | src/main.py:321-334 | Moving the centre one chunk along x evicts exactly the trailing column and creates exactly the leading one |
| Characters.Fallback | src/character.py:92-100 | Every list ends non-empty; loaded lists are kept; a missing run list is the idle list, a missing left or right list is the run list, and a missing idle list is one 32-pixel soft square |
| Characters.FallbackOnlyLoadedOrSquare | src/character.py:92-100 | After the fallback, every texture was loaded or is the soft square |
| Characters.TargetAnimation | src/character.py:125-134 | A positive turn selects the "left" animation, a negative one "right", and zero "forward", each in both directions |
| Characters.AnimStep | src/character.py:121-147 | One animation update as a function of the lists, the state and the turn; its properties are the `AnimStep...` lemmas and `AnimRunCadence` |
| Characters.AnimStepKeepsOk | src/character.py:121-147 | An update keeps the counter in 0..5 and the frame a valid index of the current list |
| Characters.AnimStepOnChange | src/character.py:136-140 | A change of animation sets frame and counter to 0 and keeps the texture |
| Characters.AnimStepSameAnimation | src/character.py:142-147 | With the animation unchanged, the sixth tick advances the frame cyclically and shows its texture; any other tick only counts |
| Characters.CadenceStep | src/character.py:121-147 | One more update, c ticks into a steady run, moves the counter to (c + 1) mod 6 and the frame to (f + (c + 1) div 6) mod length |
| Characters.AnimRunCadence | src/character.py:121-147 | Holding a direction for n updates gives counter (c + n) mod 6 and frame (f + (c + n) div 6) mod length |
| Characters.AlphaFor | src/character.py:149-155 | Wave mode is half transparent (alpha 128); otherwise the sprite is opaque (255) |
| Characters.Character.constructor | src/character.py:10-119 | The lists are the fallback of what loaded; forward animation at frame 0 on the first run texture; not in wave mode and opaque; the invariant ties the alpha to the wave look |
| Characters.Character.UpdateAnimation | src/character.py:121-147 | The new animation state is `AnimStep` of the old one; the lists and the wave look are unchanged; the invariant is kept |
| Characters.Character.SetWaveMode | src/character.py:149-155 | Sets the flag and its alpha and nothing else |
| GameRules.EnergyStep | src/main.py:406-414 | Energy stays in [0, 100]; wave mode drains 2.5 and switches off at empty; otherwise energy recharges 0.1 up to the cap; the flag can stay on only with energy left |
| GameRules.WaveDrains | src/main.py:406-412 | While energy lasts, n updates in wave mode drain exactly 2.5 n |
| GameRules.FullChargeLastsFortyUpdates | src/main.py:406-412 | A full charge keeps wave mode on for 39 updates and the 40th ends it at 0 |
| GameRules.Recharges | src/main.py:413-414 | Out of wave mode, n updates add exactly 0.1 n until full |
| GameRules.EmptyRechargesInThousandUpdates | src/main.py:413-414 | An empty charge is full after 1000 updates |
| GameRules.CollisionStep | src/main.py:403-447 | The cooldown stays in [0, 15]; a hit happens if and only if the move was blocked and the cooldown had run out; a hit restarts it at 15 |
| GameRules.CollisionHitsSpaced | src/main.py:403-447 | Over any run of updates, hits are at least 15 updates apart |
| GameRules.CooldownQuiet | src/main.py:403-404 | While the cooldown is running, no update can hit, however blocked |
| GameRules.DamagedHealth | src/main.py:389-396 | Health never goes below 0, reaches 0 exactly when the damage is at least the health, and otherwise drops by the amount |
| GameRules.HealthAfterHitsIs | src/main.py:389-391 | Each hit costs 2 health until none is left |
| GameRules.GameOverOnFiftiethHit | src/main.py:389-396 | Health reaches 0 on the 50th hit and not before |
| GameRules.GameOverTakesUpdates | src/main.py:403-447 | Losing all health to collisions takes at least 736 updates |
| GameRules.CollisionHitsFromRest | src/main.py:403-447 | From a run-out cooldown, h hits need at least 15 (h - 1) + 1 updates, with the cooldown left in [0, 15] |
| GameRules.AlwaysBlockedHits | src/main.py:403-447 | Blocked on every update, hits land on updates 1, 16, 31, ...: after n updates there have been (n - 1) div 15 + 1 hits and the cooldown is 15 - (n - 1) mod 15 |
| GameRules.GameOverTakesUpdatesIsTight | src/main.py:389-447 | The bound is reached: blocked on every update, the 50th hit, which ends the game, comes on update 736, and 735 updates give only 49 |
| GameRules.TurnOnPress | src/main.py:343-346 | Left or A sets -1, Right or D sets +1, and every other key keeps the turn |
| GameRules.TurnOnRelease | src/main.py:357-362 | A release changes the turn only when it releases the current direction, and then to 0 |
| GameRules.PressThenReleaseStraightens | src/main.py:343-362 | Pressing and releasing one direction key returns to straight ahead |
| GameRules.ReleaseOppositeKeepsTurn | src/main.py:355-362 | Releasing the opposite direction key does not cancel a turn |
| GameRules.OverlappedPressesGoStraight | src/main.py:336-362 | Holding Left, pressing Right and then releasing Right goes straight, although Left is still held |
| GameRules.ToggleTerrain | src/main.py:351-352 | Q always switches the generator |
| GameRules.ToggleTerrainTwice | src/main.py:351-352 | Pressing Q twice restores the generator |
| GameRules.ModeOf | src/main.py:223-224 | Quantum terrain reads the wave flag; the random generator ignores it |
| GameRules.RestartAsWritten | src/main.py:100-154 | Setup as written: the kept resident map streamed around the centre, and a new scene holding only the chunks that were missing |
| GameRules.RestartAsWrittenDrawsNothing | src/main.py:100-154 | `RestartAsWritten` models setup as written. At game over, restarting keeps every resident chunk and puts none in the new scene |
| GameRules.Restart | src/main.py:100-154 | The corrected restart: the resident set and the scene are both exactly the window, every chunk made afresh |
| Game.CentreChunk | src/main.py:316-319 | The chunk address of the screen centre: the camera position plus half the screen, through `ScreenToChunk` |
| Game.ProceduralForestTerrain.constructor | src/main.py:16-79 | After construction and setup, the state is valid and the counters have their initial values; the chunks are the window made in quantum mode and the scene holds exactly the window (`Restart`'s scene); the character has the fallback of the loaded lists, is not in wave mode, and is at frame 0 of the forward animation showing the first run texture |
| Game.ProceduralForestTerrain.Setup | src/main.py:100-154 | A new character with the fallback textures, out of wave mode, at frame 0 of the forward animation showing the first run texture; chunks and scene as `Restart`; camera, turn and mode kept; counters reset; the invariant holds |
| Game.ProceduralForestTerrain.NewScene | src/main.py:100-133 | An empty scene, a new character (fallback textures, out of wave mode, at frame 0 of the forward animation on the first run texture), and the window made afresh into the scene |
| Game.ProceduralForestTerrain.ResetState | src/main.py:141-150 | Game over cleared, penalty and cooldown 0, wave mode off, energy and health full, counters in range |
| Game.ProceduralForestTerrain.UpdateChunks | src/main.py:314-334 | The resident map becomes `Streamed` around the centre chunk in the current mode; new chunks join the scene; the resident set is the window |
| Game.ProceduralForestTerrain.EvictOutside | src/main.py:326-329 | Deletes exactly the resident chunks that are not needed and keeps the others' values |
| Game.ProceduralForestTerrain.CreateMissing | src/main.py:331-334 | Adds exactly the needed chunks that were missing, each as the generator makes it, and puts them in the scene |
| Game.ProceduralForestTerrain.TakeDamage | src/main.py:389-396 | Health becomes `DamagedHealth`; at 0 the game is over and wave mode is off; the character's look is untouched |
| Game.ProceduralForestTerrain.OnUpdate | src/main.py:398-464 | At game over nothing changes. Otherwise, in the source's order: energy as `EnergyStep`, cooldown, penalty and health as `CollisionStep` (collisions only out of wave mode), the game is over exactly when health is 0; the camera follows the move, the chunks are streamed around it, and the scene gains exactly the window chunks that were not resident; the animation steps as `AnimStep` with the textures kept; the character's wave look and alpha match the wave flag; turn and mode are kept; the invariant holds |
| Game.ProceduralForestTerrain.UpdateCounters | src/main.py:403-447 | Cooldown tick, energy update, then collision check, as `EnergyStep` and `CollisionStep`; the game is over exactly when health is 0; the character's wave look matches the wave flag, also on the update that ends the game; its textures and animation are untouched; counters stay in range |
| Game.ProceduralForestTerrain.UpdateEnergy | src/main.py:406-414 | Energy and wave flag become `EnergyStep`; the character leaves wave mode and its alpha becomes 255 exactly when the energy runs out, and the look is otherwise untouched |
| Game.ProceduralForestTerrain.CheckCollision | src/main.py:436-447 | Out of wave mode, a blocked move with the cooldown at 0 costs 50 penalty and 2 health and restarts the cooldown |
| Game.ProceduralForestTerrain.FollowCharacter | src/main.py:457-461 | The camera moves by the character's displacement, the chunks are streamed around the new centre, and the scene gains exactly the window chunks that were not resident |
| Game.ProceduralForestTerrain.OnKeyPress | src/main.py:336-353 | At game over only R acts, with `Setup`'s whole effect: a new character with the fallback textures, out of wave mode, at frame 0 of the forward animation on the first run texture; chunks and scene as `Restart`, camera, turn and mode kept, counters reset; any other key changes nothing. Otherwise the turn is `TurnOnPress`, Q toggles the generator, and W enters wave mode only with energy left; the sprite's alpha matches the wave flag (128 or 255); the chunks, the scene, the camera, the counters, the textures and the animation are untouched |
| Game.ProceduralForestTerrain.OnKeyRelease | src/main.py:355-365 | Also during game over: the turn is `TurnOnRelease`; W leaves wave mode and makes the sprite opaque; only the turn, the wave flag and the character's wave look can change, so the chunks, the scene, the camera, the counters, the textures and the animation are untouched |

## Left out

- Rendering, the UI text, audio and the wave particles are left out, and so are the sprites' scale and sort order. They are output only. The screen positions of the terrain and coin sprites are modelled; the character's position belongs to the movement physics below.
- Movement physics is left out. This covers the character's heading, the turn speed, cos/sin, and the engine's resolution against walls. `OnUpdate` takes the collision test's outcome (`blocked`) and the character's displacement as inputs.
- Score, displacement (a square root) and coin collection are left out. They feed only the displayed score.
- `last_damage_time` is left out. It is a clock reading, and only the colour of the health label reads it (src/main.py:560), which is output.
- The density pipelines and `quantum_state.py` are left out. The pipelines are trigonometric quantum-state simulations in floating point; the model takes their measurements as the `Field` functions.
- `get_chunk_seed` is left out (floating-point trigonometry and XOR). It is the `World.chunkSeed` parameter.
- Python's `random.Random` (Mersenne Twister) is left out. It is the `World.rngStream` parameter: a seed gives the sequence of draws.
- Image loading is left out; it is I/O. The loaded texture lists and the set of names that have a texture are inputs. For the character, a failed load shows up as a shorter or empty list, as in src/character.py. For the terrain, `load_textures` stops at the first failed load (src/main.py:83-98), so the names with a texture are a prefix of its load order, and grass is always present.
- Chunks.PlaceTile: the model assumes the coin texture is present. `coin` is loaded last, so after any failed terrain load the game raises KeyError at the first coin placed, that is, at the first empty tile whose roll is below 0.15 (src/main.py:303-305). The model places the coin instead and does not model the crash.
- Game.ProceduralForestTerrain.Setup: follows the corrected restart of "## Findings" (`GameRules.Restart`). It empties the resident map together with the scene, which `setup` (src/main.py:100-134) does not do. The game as written is `GameRules.RestartAsWritten`. So the class invariant that every resident chunk is in the scene (`AllDrawn`) holds only for the corrected game.
- Game.ProceduralForestTerrain.NewScene: empties the resident map, as the corrected restart does; src/main.py:102-134 never clears `self.chunks`.
- Game.ProceduralForestTerrain.OnKeyPress: R at game over runs the corrected `Setup`, so its chunks are those of `GameRules.Restart`, not of `GameRules.RestartAsWritten`.
- Camera: the engine's initial camera position is a constructor parameter.
- The character's start position and heading are set in `setup` and used only by physics and score, so they are not modelled.
- Iteration order over Python sets is not modelled. The creation and eviction loops pick their next chunk arbitrarily, and the results are proved independent of the order.
- Game.ProceduralForestTerrain.UpdateChunks: `drawn` is a set of chunk addresses. The game adds a second copy of a chunk's sprites when it re-creates the chunk after an eviction, and the set does not count such copies.
- TerrainGeneration.Blend: the blend is computed with exact reals; the game computes it in floating point, so a density within rounding distance of a cut point may be classified differently.
- Utils.HitboxForElement: the hitbox corners are exact reals; the game's products such as 38.4 * 0.45 are floating point.
- Utils.ScreenToChunk: the screen point is an exact real, not a float. Dividing by 1024 or 512 is exact in floating point too, since both are powers of two, so the chunk address differs only where the camera position itself carries rounding error.
- GameRules.EnergyStep: energy is an exact real. The game uses floating point, where repeated 0.1 steps accumulate rounding error. The drain of 2.5 from 100 is exact in both.
- GameRules.EmptyRechargesInThousandUpdates: this holds for exact reals; in floating point the count may differ.
- Utils.IsoToScreenRoundTrip: screen coordinates are integers. The game computes them as floats, but they always have integer values.
- The printed message on Q is not modelled.

## Findings

| source | as written | input that shows it | evidently intended | confidence | as-written member | corrected member |
|---|---|---|---|---|---|---|
| src/main.py:100-154 | `setup` replaces the scene with an empty one but keeps the resident chunk map. `update_chunks` then finds every window chunk already resident and creates none, so the restarted game has no ground, objects, walls or coins in its scene | Lose all health; the camera stops with the 81 window chunks resident; press R | Restarting empties the resident map with the scene, so the whole window is generated into the new scene | high; not executed | GameRules.RestartAsWrittenDrawsNothing | GameRules.Restart |

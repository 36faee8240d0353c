/** Chunk generation and streaming: the choice of a terrain element for a
    tile (quantum mode or the seeded random fallback), the construction of
    one chunk's layers tile by tile, and the square window of chunks kept
    resident around the centre chunk. */
module Chunks {
  import opened Elements
  import opened Constants
  import opened TerrainGeneration
  import opened Utils

  /** A chunk-local random stream: `draws(n)` is the value the n-th call
      of the seeded generator returns. */
  type Draws = nat -> real

  /** What generation reads but does not compute: the density producers,
      the chunk seed function, the stream a seed starts, and the names
      that have a loaded texture. */
  datatype World = World(
    field: Field,
    chunkSeed: (int, int) -> int,
    rngStream: int -> Draws,
    textures: set<string>)

  /** Generation mode sampled when a chunk is created: quantum terrain
      (with the wave-mode flag it reads) or the random fallback. */
  datatype Mode = Quantum(wave: bool) | Random

  /** Names with a texture when every terrain texture loads (besides the
      grass and coin textures, which no element uses). */
  const LoadedTextures: set<string> := {
    "grass", "tree_blocks_fall", "tree_default_fall", "tree_fat_fall",
    "tree_thin_fall", "tree_oak_fall", "stone_tall", "stone_large",
    "bush_small", "log", "log_large", "coin"}

  // ---------------------------------------------------------------------
  // generate_terrain_element
  // ---------------------------------------------------------------------

  const TreeCuts: seq<real> := [0.3, 0.5, 0.7, 0.85]
  const TreeLabels: seq<Feature> := [TreeBlocksFall, TreeOakFall, TreeDefaultFall, TreeFatFall, TreeThinFall]

  /** Tree kind picked by the second draw of the random fallback. */
  function RandomTree(t: real): Feature
  {
    if t < 0.3 then TreeBlocksFall
    else if t < 0.5 then TreeOakFall
    else if t < 0.7 then TreeDefaultFall
    else if t < 0.85 then TreeFatFall
    else TreeThinFall
  }

  /** The tree choice is the band table over cut points 0.3/0.5/0.7/0.85. */
  lemma RandomTreeIsBandTable(t: real)
    ensures |TreeLabels| == |TreeCuts| + 1
    ensures RandomTree(t) == TreeLabels[Band(TreeCuts, t)]
  {
    assert Ascending(TreeCuts);
    BandIsInterval(TreeCuts, t);
  }

  /** The random fallback, reading the stream from position `pos`; the
      second component is the position after the draws it consumed. */
  function RandomElement(draws: Draws, pos: nat): (r: (Option<Feature>, nat))
    ensures r.0.None? <==> draws(pos) >= 0.48
    ensures r.0 == Some(BushSmall) <==> 0.43 <= draws(pos) < 0.48
    ensures r.0.Some? && r.0.value in TreeLabels <==> draws(pos) < 0.35
    ensures r.0.Some? && r.0.value in {StoneTall, StoneLarge} <==> 0.35 <= draws(pos) < 0.40
    ensures r.0.Some? && r.0.value in {Log, LogLarge} <==> 0.40 <= draws(pos) < 0.43
    ensures r.1 == pos + (if draws(pos) < 0.43 then 2 else 1)
  {
    var noise := draws(pos);
    if noise < 0.35 then
      (Some(RandomTree(draws(pos + 1))), pos + 2)
    else if noise < 0.40 then
      (Some(if draws(pos + 1) < 0.7 then StoneTall else StoneLarge), pos + 2)
    else if noise < 0.43 then
      (Some(if draws(pos + 1) < 0.6 then Log else LogLarge), pos + 2)
    else if noise < 0.48 then
      (Some(BushSmall), pos + 1)
    else
      (None, pos + 1)
  }

  /** What the second draw picks within each category: the tree by the
      band table of `RandomTree`, the tall stone below 0.7 and the small
      log below 0.6. */
  lemma RandomElementPicks(draws: Draws, pos: nat)
    ensures var r := RandomElement(draws, pos);
      && (draws(pos) < 0.35 ==> r.0 == Some(RandomTree(draws(pos + 1))))
      && (0.35 <= draws(pos) < 0.40 ==> (r.0 == Some(StoneTall) <==> draws(pos + 1) < 0.7))
      && (0.35 <= draws(pos) < 0.40 ==> (r.0 == Some(StoneLarge) <==> draws(pos + 1) >= 0.7))
      && (0.40 <= draws(pos) < 0.43 ==> (r.0 == Some(Log) <==> draws(pos + 1) < 0.6))
      && (0.40 <= draws(pos) < 0.43 ==> (r.0 == Some(LogLarge) <==> draws(pos + 1) >= 0.6))
  {
  }

  /** Element of tile (x, y) and the stream position after it. Quantum mode
      consumes no draws and yields a label of the density chain. */
  function GenerateTerrainElement(field: Field, mode: Mode, x: int, y: int, draws: Draws, pos: nat): (r: (Option<Feature>, nat))
    ensures mode.Quantum? ==> r.1 == pos && r.0 in DensityLabels
    ensures mode.Random? ==> pos < r.1 <= pos + 2
  {
    match mode
    case Quantum(wave) => (HybridTerrain(field, x, y, wave), pos)
    case Random => RandomElement(draws, pos)
  }

  /** The element source a chunk reads tile by tile: for tile (x, y) and
      stream position pos, the element and the position after it. */
  type Generator = (int, int, nat) -> (Option<Feature>, nat)

  /** generate_terrain_element for one field, mode and chunk stream. */
  function TerrainGenerator(field: Field, mode: Mode, draws: Draws): (gen: Generator)
    ensures forall x, y, pos :: gen(x, y, pos) == GenerateTerrainElement(field, mode, x, y, draws, pos)
  {
    (x, y, pos) => GenerateTerrainElement(field, mode, x, y, draws, pos)
  }

  // ---------------------------------------------------------------------
  // Tile records and chunk layers
  // ---------------------------------------------------------------------

  datatype Ground = Ground(tile: (int, int), screen: (int, int))
  /** A terrain object sprite; walls carry a hitbox, objects do not. */
  datatype Detail = Detail(tile: (int, int), screen: (int, int), element: Feature, hitbox: Option<seq<(real, real)>>)
  /** A coin sprite, drawn 10 units above its tile's centre. */
  datatype Coin = Coin(tile: (int, int), screen: (int, int))

  /** The four layers of one chunk. */
  datatype Chunk = Chunk(ground: seq<Ground>, objects: seq<Detail>, walls: seq<Detail>, coins: seq<Coin>)

  /** A chunk under construction and the number of draws consumed so far. */
  datatype Progress = Progress(chunk: Chunk, used: nat)

  const EmptyChunk: Chunk := Chunk([], [], [], [])

  /** Tile k of chunk (cx, cy) in visiting order: x-major, 16 tiles per
      column. The chunk side is written as the literal 16 (ChunkSize) so
      that the division stays linear arithmetic for the solver. */
  function TileAt(cx: int, cy: int, k: nat): (int, int)
  {
    (cx * 16 + k / 16, cy * 16 + k % 16)
  }

  /** Position of tile t in the visiting order of chunk (cx, cy). */
  function TileIndex(cx: int, cy: int, t: (int, int)): int
  {
    (t.0 - cx * ChunkSize) * ChunkSize + (t.1 - cy * ChunkSize)
  }

  predicate InChunk(cx: int, cy: int, t: (int, int))
  {
    cx * ChunkSize <= t.0 < cx * ChunkSize + ChunkSize && cy * ChunkSize <= t.1 < cy * ChunkSize + ChunkSize
  }

  /** The visiting order enumerates the chunk's square: the k-th tile lies
      in the chunk and has index k, and tile (cx*16 + i, cy*16 + j) is
      visited at step 16i + j. */
  lemma TileAtIndex(cx: int, cy: int, k: nat)
    requires k < ChunkSize * ChunkSize
    ensures InChunk(cx, cy, TileAt(cx, cy, k)) && TileIndex(cx, cy, TileAt(cx, cy, k)) == k
  {
    assert k == k / 16 * 16 + k % 16;
  }

  lemma TileAtColumnRow(cx: int, cy: int, i: int, j: int, k: nat, t: (int, int))
    requires 0 <= i < ChunkSize && 0 <= j < ChunkSize && k == i * 16 + j
    requires t.0 == cx * ChunkSize + i && t.1 == cy * ChunkSize + j
    ensures TileAt(cx, cy, k) == t
  {
    assert k / 16 == i && k % 16 == j;
  }

  /** The wall a tile gets: one, with the element's hitbox, exactly when the
      element exists, has a texture and collides. */
  function NewWall(world: World, t: (int, int), element: Option<Feature>): seq<Detail>
  {
    if element.Some? && Name(element.value) in world.textures && HasCollision(Name(element.value)) then
      [Detail(t, IsoToScreen(t.0, t.1), element.value, Some(HitboxForElement(Name(element.value))))]
    else []
  }

  /** The plain object a tile gets: one exactly when the element exists,
      has a texture and does not collide. */
  function NewObject(world: World, t: (int, int), element: Option<Feature>): seq<Detail>
  {
    if element.Some? && Name(element.value) in world.textures && !HasCollision(Name(element.value)) then
      [Detail(t, IsoToScreen(t.0, t.1), element.value, None)]
    else []
  }

  /** The coin a tile gets: only a tile without element draws once more,
      and gets a coin 10 units above its centre if the draw is below the
      spawn chance. */
  function NewCoin(draws: Draws, used: nat, t: (int, int), element: Option<Feature>): seq<Coin>
  {
    if element.None? && draws(used) < CoinSpawnChance then
      [Coin(t, (IsoToScreen(t.0, t.1).0, IsoToScreen(t.0, t.1).1 + 10))]
    else []
  }

  /** Adds one tile: a ground entry always, then its wall, object or coin,
      if any; a tile without element consumes one more draw (the coin
      draw). */
  function PlaceTile(world: World, gen: Generator, draws: Draws, p: Progress, t: (int, int)): Progress
  {
    var e := gen(t.0, t.1, p.used);
    Progress(
      Chunk(p.chunk.ground + [Ground(t, IsoToScreen(t.0, t.1))],
            p.chunk.objects + NewObject(world, t, e.0),
            p.chunk.walls + NewWall(world, t, e.0),
            p.chunk.coins + NewCoin(draws, e.1, t, e.0)),
      NextUsed(gen, p.used, t))
  }

  /** Where tile t leaves the stream when it starts reading at pos. */
  function NextUsed(gen: Generator, pos: nat, t: (int, int)): nat
  {
    var e := gen(t.0, t.1, pos);
    if e.0.None? then e.1 + 1 else e.1
  }

  /** What one tile adds: exactly one ground entry, at most one detail or
      coin and never two of them, each on the tile itself; nothing already
      placed changes. */
  lemma PlaceTileEffect(world: World, gen: Generator, draws: Draws, p: Progress, t: (int, int))
    ensures var q := PlaceTile(world, gen, draws, p, t).chunk;
      var (e, pos) := gen(t.0, t.1, p.used);
      && q.ground == p.chunk.ground + [Ground(t, IsoToScreen(t.0, t.1))]
      && q.walls[..|p.chunk.walls|] == p.chunk.walls
      && q.objects[..|p.chunk.objects|] == p.chunk.objects
      && q.coins[..|p.chunk.coins|] == p.chunk.coins
      && (|q.walls| == |p.chunk.walls| + 1 <==> e.Some? && Name(e.value) in world.textures && HasCollision(Name(e.value)))
      && (|q.objects| == |p.chunk.objects| + 1 <==> e.Some? && Name(e.value) in world.textures && !HasCollision(Name(e.value)))
      && (|q.coins| == |p.chunk.coins| + 1 <==> e.None? && draws(pos) < CoinSpawnChance)
      && (|q.walls| > |p.chunk.walls| ==>
            q.walls[|p.chunk.walls|] == Detail(t, IsoToScreen(t.0, t.1), e.value, Some(HitboxForElement(Name(e.value)))))
      && (|q.objects| > |p.chunk.objects| ==> q.objects[|p.chunk.objects|] == Detail(t, IsoToScreen(t.0, t.1), e.value, None))
      && (|q.coins| > |p.chunk.coins| ==> q.coins[|p.chunk.coins|] == Coin(t, (IsoToScreen(t.0, t.1).0, IsoToScreen(t.0, t.1).1 + 10)))
      && PlaceTile(world, gen, draws, p, t).used == (if e.None? then pos + 1 else pos)
      && (|q.walls| - |p.chunk.walls|) + (|q.objects| - |p.chunk.objects|) + (|q.coins| - |p.chunk.coins|) <= 1
  {
  }

  /** The chunk after its first n tiles in visiting order. */
  function ChunkPrefix(world: World, gen: Generator, cx: int, cy: int, draws: Draws, n: nat): Progress
  {
    if n == 0 then Progress(EmptyChunk, 0)
    else PlaceTile(world, gen, draws, ChunkPrefix(world, gen, cx, cy, draws, n - 1), TileAt(cx, cy, n - 1))
  }

  /** One more tile extends the prefix by one PlaceTile step. */
  lemma ChunkPrefixSucc(world: World, gen: Generator, cx: int, cy: int, draws: Draws, k: nat)
    ensures ChunkPrefix(world, gen, cx, cy, draws, k + 1)
      == PlaceTile(world, gen, draws, ChunkPrefix(world, gen, cx, cy, draws, k), TileAt(cx, cy, k))
  {
  }

  lemma ChunkPrefixNext(world: World, gen: Generator, cx: int, cy: int, draws: Draws, k: nat, next: nat, t: (int, int))
    requires next == k + 1 && t == TileAt(cx, cy, k)
    ensures ChunkPrefix(world, gen, cx, cy, draws, next)
      == PlaceTile(world, gen, draws, ChunkPrefix(world, gen, cx, cy, draws, k), t)
  {
    ChunkPrefixSucc(world, gen, cx, cy, draws, k);
  }

  /** The stream a chunk reads: a generator seeded with the chunk's seed
      alone, so a chunk never depends on which chunks were made before it. */
  function ChunkDraws(world: World, cx: int, cy: int): Draws
  {
    world.rngStream(world.chunkSeed(cx, cy))
  }

  /** The generator create_chunk reads for chunk (cx, cy) in a given mode. */
  function ChunkGenerator(world: World, mode: Mode, cx: int, cy: int): Generator
  {
    TerrainGenerator(world.field, mode, ChunkDraws(world, cx, cy))
  }

  /** The chunk create_chunk builds for (cx, cy) in a given mode. */
  function ChunkSpec(world: World, mode: Mode, cx: int, cy: int): Chunk
  {
    ChunkPrefix(world, ChunkGenerator(world, mode, cx, cy), cx, cy, ChunkDraws(world, cx, cy), ChunkSize * ChunkSize).chunk
  }

  /** The body of create_chunk's tile loop: appends tile t's ground entry,
      then its wall or object, or (for a tile without element) its coin. */
  method AddTile(world: World, mode: Mode, rng: Draws, p: Progress, t: (int, int)) returns (q: Progress)
    ensures q == PlaceTile(world, TerrainGenerator(world.field, mode, rng), rng, p, t)
  {
    var ground, objects, walls, coins := p.chunk.ground, p.chunk.objects, p.chunk.walls, p.chunk.coins;
    var screen := IsoToScreen(t.0, t.1);
    ground := ground + [Ground(t, screen)];
    var generated := GenerateTerrainElement(world.field, mode, t.0, t.1, rng, p.used);
    var element := generated.0;
    var used := generated.1;
    if element.Some? && Name(element.value) in world.textures {
      var name := Name(element.value);
      if HasCollision(name) {
        walls := walls + [Detail(t, screen, element.value, Some(HitboxForElement(name)))];
      } else {
        objects := objects + [Detail(t, screen, element.value, None)];
      }
    }
    if element.None? {
      var coinDraw := rng(used);
      used := used + 1;
      if coinDraw < CoinSpawnChance {
        coins := coins + [Coin(t, (screen.0, screen.1 + 10))];
      }
    }
    assert objects == p.chunk.objects + NewObject(world, t, element);
    assert walls == p.chunk.walls + NewWall(world, t, element);
    assert coins == p.chunk.coins + NewCoin(rng, generated.1, t, element);
    q := Progress(Chunk(ground, objects, walls, coins), used);
  }

  /** Builds chunk (cx, cy) by visiting its tiles column by column. */
  method CreateChunk(world: World, mode: Mode, cx: int, cy: int) returns (chunk: Chunk)
    ensures chunk == ChunkSpec(world, mode, cx, cy)
  {
    var rng := ChunkDraws(world, cx, cy);
    var startX, startY := cx * ChunkSize, cy * ChunkSize;
    var progress := Progress(EmptyChunk, 0);
    ghost var gen := ChunkGenerator(world, mode, cx, cy);
    ghost var k: nat := 0;
    for x := 0 to ChunkSize
      invariant k == x * 16
      invariant progress == ChunkPrefix(world, gen, cx, cy, rng, k)
    {
      for y := 0 to ChunkSize
        invariant k == x * 16 + y
        invariant progress == ChunkPrefix(world, gen, cx, cy, rng, k)
      {
        var tile := (startX + x, startY + y);
        TileAtColumnRow(cx, cy, x, y, k, tile);
        ghost var next := k + 1;
        ChunkPrefixNext(world, gen, cx, cy, rng, k, next, tile);
        progress := AddTile(world, mode, rng, progress, tile);
        k := next;
      }
    }
    assert k == ChunkSize * ChunkSize;
    assert progress == ChunkPrefix(world, gen, cx, cy, ChunkDraws(world, cx, cy), ChunkSize * ChunkSize);
    chunk := progress.chunk;
  }

  // ---------------------------------------------------------------------
  // Properties of a generated chunk
  // ---------------------------------------------------------------------

  /** Tile t is one of the first n tiles of chunk (cx, cy). */
  predicate Visited(cx: int, cy: int, t: (int, int), n: nat)
  {
    InChunk(cx, cy, t) && TileIndex(cx, cy, t) < n
  }

  /** The ground entries of the first n tiles, in visiting order. */
  function GroundLayer(cx: int, cy: int, n: nat): seq<Ground>
  {
    if n == 0 then []
    else
      var t := TileAt(cx, cy, n - 1);
      GroundLayer(cx, cy, n - 1) + [Ground(t, IsoToScreen(t.0, t.1))]
  }

  lemma {:induction false} GroundLayerAt(cx: int, cy: int, n: nat)
    ensures var g := GroundLayer(cx, cy, n);
      && |g| == n
      && forall k :: 0 <= k < n ==> g[k] == Ground(TileAt(cx, cy, k), IsoToScreen(TileAt(cx, cy, k).0, TileAt(cx, cy, k).1))
  {
    if n > 0 {
      GroundLayerAt(cx, cy, n - 1);
    }
  }

  /** Progress p holds the ground entries of the first n tiles. */
  ghost predicate GroundAt(cx: int, cy: int, p: Progress, n: nat)
  {
    p.chunk.ground == GroundLayer(cx, cy, n)
  }

  /** Tile n - 1 appends its ground entry at the end of the ground layer. */
  lemma PlaceTileGround(world: World, gen: Generator, cx: int, cy: int, draws: Draws, p: Progress, n: nat)
    requires 0 < n && GroundAt(cx, cy, p, n - 1)
    ensures GroundAt(cx, cy, PlaceTile(world, gen, draws, p, TileAt(cx, cy, n - 1)), n)
  {
  }

  lemma {:induction false} PrefixGroundAt(world: World, gen: Generator, cx: int, cy: int, draws: Draws, n: nat)
    ensures GroundAt(cx, cy, ChunkPrefix(world, gen, cx, cy, draws, n), n)
    decreases n
  {
    if n > 0 {
      PrefixGroundAt(world, gen, cx, cy, draws, n - 1);
      PlaceTileGround(world, gen, cx, cy, draws, ChunkPrefix(world, gen, cx, cy, draws, n - 1), n);
    }
  }

  /** The ground layer depends on the tiles alone: the elements and draws
      never touch it. */
  lemma PrefixGround(world: World, gen: Generator, cx: int, cy: int, draws: Draws, n: nat)
    ensures ChunkPrefix(world, gen, cx, cy, draws, n).chunk.ground == GroundLayer(cx, cy, n)
  {
    PrefixGroundAt(world, gen, cx, cy, draws, n);
  }

  /** The ground layer after n tiles: one entry per visited tile, in order. */
  lemma GroundAfter(world: World, gen: Generator, cx: int, cy: int, draws: Draws, n: nat)
    ensures var g := ChunkPrefix(world, gen, cx, cy, draws, n).chunk.ground;
      && |g| == n
      && forall k :: 0 <= k < n ==> g[k] == Ground(TileAt(cx, cy, k), IsoToScreen(TileAt(cx, cy, k).0, TileAt(cx, cy, k).1))
  {
    PrefixGround(world, gen, cx, cy, draws, n);
    GroundLayerAt(cx, cy, n);
  }

  /** Every detail and coin of a partial chunk sits on one of the first n
      tiles. */
  ghost predicate Located(cx: int, cy: int, c: Chunk, n: nat)
  {
    && (forall i :: 0 <= i < |c.walls| ==> Visited(cx, cy, c.walls[i].tile, n))
    && (forall i :: 0 <= i < |c.objects| ==> Visited(cx, cy, c.objects[i].tile, n))
    && (forall i :: 0 <= i < |c.coins| ==> Visited(cx, cy, c.coins[i].tile, n))
  }

  /** Each layer lists its records in visiting order, so no tile appears
      twice in a layer. */
  ghost predicate Ordered(cx: int, cy: int, c: Chunk)
  {
    && (forall i, j :: 0 <= i < j < |c.walls| ==> TileIndex(cx, cy, c.walls[i].tile) < TileIndex(cx, cy, c.walls[j].tile))
    && (forall i, j :: 0 <= i < j < |c.objects| ==> TileIndex(cx, cy, c.objects[i].tile) < TileIndex(cx, cy, c.objects[j].tile))
    && (forall i, j :: 0 <= i < j < |c.coins| ==> TileIndex(cx, cy, c.coins[i].tile) < TileIndex(cx, cy, c.coins[j].tile))
  }

  /** No tile holds both a wall and an object, nor a detail and a coin. */
  ghost predicate Exclusive(c: Chunk)
  {
    && (forall i, j :: 0 <= i < |c.walls| && 0 <= j < |c.objects| ==> c.walls[i].tile != c.objects[j].tile)
    && (forall i, j :: 0 <= i < |c.walls| && 0 <= j < |c.coins| ==> c.walls[i].tile != c.coins[j].tile)
    && (forall i, j :: 0 <= i < |c.objects| && 0 <= j < |c.coins| ==> c.objects[i].tile != c.coins[j].tile)
  }

  /** A wall holds a textured colliding element with that element's hitbox. */
  ghost predicate WallOk(world: World, w: Detail)
  {
    Name(w.element) in world.textures && HasCollision(Name(w.element))
    && w.hitbox == Some(HitboxForElement(Name(w.element))) && w.screen == IsoToScreen(w.tile.0, w.tile.1)
  }

  /** An object holds a textured walkable element and has no hitbox. */
  ghost predicate ObjectOk(world: World, o: Detail)
  {
    Name(o.element) in world.textures && !HasCollision(Name(o.element))
    && o.hitbox.None? && o.screen == IsoToScreen(o.tile.0, o.tile.1)
  }

  /** Every record is of the right kind for its layer. */
  ghost predicate Typed(world: World, c: Chunk)
  {
    && (forall i :: 0 <= i < |c.walls| ==> WallOk(world, c.walls[i]))
    && (forall i :: 0 <= i < |c.objects| ==> ObjectOk(world, c.objects[i]))
    && (forall i :: 0 <= i < |c.coins| ==> c.coins[i].screen == (IsoToScreen(c.coins[i].tile.0, c.coins[i].tile.1).0, IsoToScreen(c.coins[i].tile.0, c.coins[i].tile.1).1 + 10))
  }

  ghost predicate LayersSound(world: World, cx: int, cy: int, c: Chunk, n: nat)
  {
    Located(cx, cy, c, n) && Ordered(cx, cy, c) && Exclusive(c) && Typed(world, c)
  }

  /** Chunk q is chunk c plus at most one detail or coin, on tile t, each
      layer of c kept as its prefix. */
  ghost predicate StepOf(c: Chunk, q: Chunk, t: (int, int))
  {
    && |c.walls| <= |q.walls| <= |c.walls| + 1 && q.walls[..|c.walls|] == c.walls
    && |c.objects| <= |q.objects| <= |c.objects| + 1 && q.objects[..|c.objects|] == c.objects
    && |c.coins| <= |q.coins| <= |c.coins| + 1 && q.coins[..|c.coins|] == c.coins
    && (|q.walls| > |c.walls| ==> q.walls[|c.walls|].tile == t)
    && (|q.objects| > |c.objects| ==> q.objects[|c.objects|].tile == t)
    && (|q.coins| > |c.coins| ==> q.coins[|c.coins|].tile == t)
    && (|q.walls| - |c.walls|) + (|q.objects| - |c.objects|) + (|q.coins| - |c.coins|) <= 1
  }

  lemma PlaceTileStep(world: World, gen: Generator, draws: Draws, p: Progress, t: (int, int))
    ensures StepOf(p.chunk, PlaceTile(world, gen, draws, p, t).chunk, t)
    ensures Typed(world, p.chunk) ==> Typed(world, PlaceTile(world, gen, draws, p, t).chunk)
  {
    PlaceTileEffect(world, gen, draws, p, t);
  }

  lemma LocatedStep(cx: int, cy: int, c: Chunk, q: Chunk, n: nat)
    requires 0 < n <= ChunkSize * ChunkSize
    requires Located(cx, cy, c, n - 1) && StepOf(c, q, TileAt(cx, cy, n - 1))
    ensures Located(cx, cy, q, n)
  {
    TileAtIndex(cx, cy, n - 1);
    assert forall i :: 0 <= i < |c.walls| ==> q.walls[i] == c.walls[i];
    assert forall i :: 0 <= i < |c.objects| ==> q.objects[i] == c.objects[i];
    assert forall i :: 0 <= i < |c.coins| ==> q.coins[i] == c.coins[i];
  }

  lemma OrderedStep(cx: int, cy: int, c: Chunk, q: Chunk, n: nat)
    requires n < ChunkSize * ChunkSize
    requires Located(cx, cy, c, n) && Ordered(cx, cy, c) && StepOf(c, q, TileAt(cx, cy, n))
    ensures Ordered(cx, cy, q)
  {
    TileAtIndex(cx, cy, n);
    assert forall i :: 0 <= i < |c.walls| ==> q.walls[i] == c.walls[i];
    assert forall i :: 0 <= i < |c.objects| ==> q.objects[i] == c.objects[i];
    assert forall i :: 0 <= i < |c.coins| ==> q.coins[i] == c.coins[i];
  }

  lemma ExclusiveStep(cx: int, cy: int, c: Chunk, q: Chunk, n: nat)
    requires n < ChunkSize * ChunkSize
    requires Located(cx, cy, c, n) && Exclusive(c) && StepOf(c, q, TileAt(cx, cy, n))
    ensures Exclusive(q)
  {
    var t := TileAt(cx, cy, n);
    TileAtIndex(cx, cy, n);
    assert forall i :: 0 <= i < |c.walls| ==> q.walls[i] == c.walls[i] && c.walls[i].tile != t;
    assert forall i :: 0 <= i < |c.objects| ==> q.objects[i] == c.objects[i] && c.objects[i].tile != t;
    assert forall i :: 0 <= i < |c.coins| ==> q.coins[i] == c.coins[i] && c.coins[i].tile != t;
  }

  /** One step keeps the layers sound: the new records all belong to the
      new tile, which no earlier record uses and which comes after every
      earlier tile. */
  lemma PlaceTileSound(world: World, gen: Generator, cx: int, cy: int, draws: Draws, p: Progress, n: nat)
    requires 0 < n <= ChunkSize * ChunkSize
    requires LayersSound(world, cx, cy, p.chunk, n - 1)
    ensures LayersSound(world, cx, cy, PlaceTile(world, gen, draws, p, TileAt(cx, cy, n - 1)).chunk, n)
  {
    var t := TileAt(cx, cy, n - 1);
    var q := PlaceTile(world, gen, draws, p, t).chunk;
    PlaceTileStep(world, gen, draws, p, t);
    LocatedStep(cx, cy, p.chunk, q, n);
    OrderedStep(cx, cy, p.chunk, q, n - 1);
    ExclusiveStep(cx, cy, p.chunk, q, n - 1);
  }

  lemma {:induction false} PrefixSound(world: World, gen: Generator, cx: int, cy: int, draws: Draws, n: nat)
    requires n <= ChunkSize * ChunkSize
    ensures LayersSound(world, cx, cy, ChunkPrefix(world, gen, cx, cy, draws, n).chunk, n)
    decreases n
  {
    if n > 0 {
      PrefixSound(world, gen, cx, cy, draws, n - 1);
      PlaceTileSound(world, gen, cx, cy, draws, ChunkPrefix(world, gen, cx, cy, draws, n - 1), n);
    }
  }

  /** A generated chunk has exactly one ground entry per tile of its 16 x 16
      square, in x-major order, each drawn at its tile's projection: entry k
      is a tile of the chunk whose index is k, and every tile of the chunk
      is the entry at its index. */
  lemma ChunkGroundIsSquare(world: World, mode: Mode, cx: int, cy: int)
    ensures var g := ChunkSpec(world, mode, cx, cy).ground;
      && |g| == ChunkSize * ChunkSize
      && (forall k :: 0 <= k < |g| ==>
            InChunk(cx, cy, g[k].tile) && TileIndex(cx, cy, g[k].tile) == k && g[k].screen == IsoToScreen(g[k].tile.0, g[k].tile.1))
      && (forall t :: InChunk(cx, cy, t) ==> 0 <= TileIndex(cx, cy, t) < |g| && g[TileIndex(cx, cy, t)].tile == t)
  {
    var g := ChunkSpec(world, mode, cx, cy).ground;
    GroundAfter(world, ChunkGenerator(world, mode, cx, cy), cx, cy, ChunkDraws(world, cx, cy), ChunkSize * ChunkSize);
    forall k | 0 <= k < |g|
      ensures InChunk(cx, cy, g[k].tile) && TileIndex(cx, cy, g[k].tile) == k
    {
      TileAtIndex(cx, cy, k);
    }
    forall t | InChunk(cx, cy, t)
      ensures 0 <= TileIndex(cx, cy, t) < |g| && g[TileIndex(cx, cy, t)].tile == t
    {
      var i, j := t.0 - cx * ChunkSize, t.1 - cy * ChunkSize;
      var k := TileIndex(cx, cy, t);
      assert k == i * 16 + j;
      TileAtColumnRow(cx, cy, i, j, k, t);
    }
  }

  /** The layers of a generated chunk: walls hold exactly colliding
      textured elements with their hitboxes, objects the non-colliding
      textured ones, every record lies in the chunk, and no tile has two
      details or both a detail and a coin. */
  lemma ChunkLayersSound(world: World, mode: Mode, cx: int, cy: int)
    ensures LayersSound(world, cx, cy, ChunkSpec(world, mode, cx, cy), ChunkSize * ChunkSize)
  {
    PrefixSound(world, ChunkGenerator(world, mode, cx, cy), cx, cy, ChunkDraws(world, cx, cy), ChunkSize * ChunkSize);
  }

  // ---------------------------------------------------------------------
  // Which tiles get a wall or an object, and with which element
  // ---------------------------------------------------------------------

  /** The draws the first n tiles of a chunk consume. */
  ghost function UsedAfter(gen: Generator, cx: int, cy: int, n: nat): nat
  {
    if n == 0 then 0
    else NextUsed(gen, UsedAfter(gen, cx, cy, n - 1), TileAt(cx, cy, n - 1))
  }

  /** The element generated for the k-th visited tile, read from the
      stream where the tiles before it left it. */
  ghost function ElementAt(gen: Generator, cx: int, cy: int, k: nat): Option<Feature>
  {
    var t := TileAt(cx, cy, k);
    gen(t.0, t.1, UsedAfter(gen, cx, cy, k)).0
  }

  /** The wall (wall == true) or object a tile gets for its element. */
  function NewDetail(world: World, t: (int, int), e: Option<Feature>, wall: bool): seq<Detail>
  {
    if wall then NewWall(world, t, e) else NewObject(world, t, e)
  }

  /** The record of a wall (with the element's hitbox) or an object. */
  function DetailRecord(t: (int, int), f: Feature, wall: bool): Detail
  {
    Detail(t, IsoToScreen(t.0, t.1), f, if wall then Some(HitboxForElement(Name(f))) else None)
  }

  /** Element f is drawn as a wall (wall == true) or as an object: it has
      a texture and collides, or has a texture and does not. */
  predicate DetailFor(world: World, f: Feature, wall: bool)
  {
    Name(f) in world.textures && HasCollision(Name(f)) == wall
  }

  /** The wall layer (wall == true) or object layer the first n tiles
      call for, given the element es[k] of each tile k, in visiting order. */
  function LayerOf(world: World, cx: int, cy: int, es: seq<Option<Feature>>, n: nat, wall: bool): seq<Detail>
    requires n <= |es|
  {
    if n == 0 then []
    else LayerOf(world, cx, cy, es, n - 1, wall) + NewDetail(world, TileAt(cx, cy, n - 1), es[n - 1], wall)
  }

  /** The records a tile gets: one, holding its element, exactly when the
      element calls for it. */
  lemma NewDetailHolds(world: World, t: (int, int), e: Option<Feature>, wall: bool)
    ensures forall d :: d in NewDetail(world, t, e, wall) <==> e.Some? && DetailFor(world, e.value, wall) && d == DetailRecord(t, e.value, wall)
  {
  }

  /** Every record of a layer sits on a tile whose element calls for it,
      and holds that element. */
  lemma {:induction false} LayerOfSound(world: World, cx: int, cy: int, es: seq<Option<Feature>>, n: nat, wall: bool)
    requires n <= |es| && n <= ChunkSize * ChunkSize
    ensures forall d :: d in LayerOf(world, cx, cy, es, n, wall) ==>
      && InChunk(cx, cy, d.tile) && 0 <= TileIndex(cx, cy, d.tile) < n
      && es[TileIndex(cx, cy, d.tile)] == Some(d.element)
      && DetailFor(world, d.element, wall) && d == DetailRecord(d.tile, d.element, wall)
  {
    if n > 0 {
      LayerOfSound(world, cx, cy, es, n - 1, wall);
      TileAtIndex(cx, cy, n - 1);
      NewDetailHolds(world, TileAt(cx, cy, n - 1), es[n - 1], wall);
    }
  }

  /** Every tile whose element calls for a record has it in the layer. */
  lemma {:induction false} LayerOfComplete(world: World, cx: int, cy: int, es: seq<Option<Feature>>, n: nat, wall: bool)
    requires n <= |es|
    ensures forall k :: 0 <= k < n && es[k].Some? && DetailFor(world, es[k].value, wall) ==>
      DetailRecord(TileAt(cx, cy, k), es[k].value, wall) in LayerOf(world, cx, cy, es, n, wall)
  {
    if n > 0 {
      LayerOfComplete(world, cx, cy, es, n - 1, wall);
      NewDetailHolds(world, TileAt(cx, cy, n - 1), es[n - 1], wall);
    }
  }

  /** The elements of the tiles of a chunk, in visiting order. */
  ghost function ChunkElements(gen: Generator, cx: int, cy: int): (es: seq<Option<Feature>>)
    ensures |es| == ChunkSize * ChunkSize
    ensures forall k :: 0 <= k < |es| ==> es[k] == ElementAt(gen, cx, cy, k)
  {
    seq(ChunkSize * ChunkSize, k requires 0 <= k => ElementAt(gen, cx, cy, k))
  }

  /** Progress p has consumed the draws the first n tiles consume. */
  ghost predicate UsedAt(gen: Generator, cx: int, cy: int, p: Progress, n: nat)
  {
    p.used == UsedAfter(gen, cx, cy, n)
  }

  /** Tile n - 1 consumes the draws UsedAfter counts for it. */
  lemma PlaceTileUsed(world: World, gen: Generator, cx: int, cy: int, draws: Draws, p: Progress, n: nat)
    requires 0 < n && UsedAt(gen, cx, cy, p, n - 1)
    ensures UsedAt(gen, cx, cy, PlaceTile(world, gen, draws, p, TileAt(cx, cy, n - 1)), n)
  {
  }

  lemma {:induction false} PrefixUsedAt(world: World, gen: Generator, cx: int, cy: int, draws: Draws, n: nat)
    ensures UsedAt(gen, cx, cy, ChunkPrefix(world, gen, cx, cy, draws, n), n)
    decreases n
  {
    if n > 0 {
      PrefixUsedAt(world, gen, cx, cy, draws, n - 1);
      PlaceTileUsed(world, gen, cx, cy, draws, ChunkPrefix(world, gen, cx, cy, draws, n - 1), n);
    }
  }

  /** A partial chunk has consumed the draws UsedAfter counts. */
  lemma PrefixUsed(world: World, gen: Generator, cx: int, cy: int, draws: Draws, n: nat)
    ensures ChunkPrefix(world, gen, cx, cy, draws, n).used == UsedAfter(gen, cx, cy, n)
  {
    PrefixUsedAt(world, gen, cx, cy, draws, n);
  }

  /** One tile step appends the tile's wall and object to their layers. */
  lemma PlaceTileDetails(world: World, gen: Generator, draws: Draws, p: Progress, t: (int, int), q: Progress)
    requires q == PlaceTile(world, gen, draws, p, t)
    ensures var e := gen(t.0, t.1, p.used).0;
      && q.chunk.walls == p.chunk.walls + NewDetail(world, t, e, true)
      && q.chunk.objects == p.chunk.objects + NewDetail(world, t, e, false)
  {
  }

  /** The wall layer (wall == true) or the object layer of a chunk. */
  function Layer(c: Chunk, wall: bool): seq<Detail>
  {
    if wall then c.walls else c.objects
  }

  /** Layers grown one tile at a time, each step appending what the tile's
      element calls for, are the layer LayerOf describes. */
  lemma {:induction false} LayerTrace(world: World, cx: int, cy: int, es: seq<Option<Feature>>, ls: seq<seq<Detail>>, n: nat, wall: bool)
    requires n < |ls| && n <= |es| && ls[0] == []
    requires forall i :: 0 <= i < n ==> ls[i + 1] == ls[i] + NewDetail(world, TileAt(cx, cy, i), es[i], wall)
    ensures ls[n] == LayerOf(world, cx, cy, es, n, wall)
  {
    if n > 0 {
      LayerTrace(world, cx, cy, es, ls, n - 1, wall);
      assert ls[n] == ls[n - 1] + NewDetail(world, TileAt(cx, cy, n - 1), es[n - 1], wall);
    }
  }

  /** The k-th tile of a chunk appends what its element calls for. */
  lemma PrefixLayerStep(world: World, gen: Generator, cx: int, cy: int, draws: Draws, es: seq<Option<Feature>>, k: nat, wall: bool)
    requires k < |es| && es[k] == ElementAt(gen, cx, cy, k)
    ensures Layer(ChunkPrefix(world, gen, cx, cy, draws, k + 1).chunk, wall)
      == Layer(ChunkPrefix(world, gen, cx, cy, draws, k).chunk, wall) + NewDetail(world, TileAt(cx, cy, k), es[k], wall)
  {
    var p, q := ChunkPrefix(world, gen, cx, cy, draws, k), ChunkPrefix(world, gen, cx, cy, draws, k + 1);
    var t := TileAt(cx, cy, k);
    PrefixUsed(world, gen, cx, cy, draws, k);
    ChunkPrefixNext(world, gen, cx, cy, draws, k, k + 1, t);
    PlaceTileDetails(world, gen, draws, p, t, q);
  }

  /** A generated chunk has exactly the walls and objects its tiles'
      elements call for: a record on the k-th tile exactly when the k-th
      element is textured and (for a wall) colliding or (for an object)
      walkable, and that record holds the element. */
  lemma ChunkDetails(world: World, mode: Mode, cx: int, cy: int, wall: bool)
    ensures Layer(ChunkSpec(world, mode, cx, cy), wall)
      == LayerOf(world, cx, cy, ChunkElements(ChunkGenerator(world, mode, cx, cy), cx, cy), ChunkSize * ChunkSize, wall)
  {
    var draws, gen := ChunkDraws(world, cx, cy), ChunkGenerator(world, mode, cx, cy);
    var es := ChunkElements(gen, cx, cy);
    var ls := seq(ChunkSize * ChunkSize + 1, i requires 0 <= i => Layer(ChunkPrefix(world, gen, cx, cy, draws, i).chunk, wall));
    forall i | 0 <= i < ChunkSize * ChunkSize
      ensures ls[i + 1] == ls[i] + NewDetail(world, TileAt(cx, cy, i), es[i], wall)
    {
      PrefixLayerStep(world, gen, cx, cy, draws, es, i, wall);
    }
    LayerTrace(world, cx, cy, es, ls, ChunkSize * ChunkSize, wall);
  }

  /** In quantum mode a tile of a generated chunk has a wall (or an
      object) exactly when its hybrid terrain label is textured and
      colliding (or walkable), and every wall or object on it holds that
      label. */
  lemma QuantumChunkDetails(world: World, wave: bool, cx: int, cy: int, t: (int, int), wall: bool)
    requires InChunk(cx, cy, t)
    ensures var c := ChunkSpec(world, Quantum(wave), cx, cy);
      var layer := Layer(c, wall);
      var e := HybridTerrain(world.field, t.0, t.1, wave);
      && (forall d :: d in layer && d.tile == t ==> Some(d.element) == e)
      && ((exists d :: d in layer && d.tile == t) <==> e.Some? && DetailFor(world, e.value, wall))
  {
    var es := ChunkElements(ChunkGenerator(world, Quantum(wave), cx, cy), cx, cy);
    var i, j := t.0 - cx * ChunkSize, t.1 - cy * ChunkSize;
    var k := i * 16 + j;
    TileAtColumnRow(cx, cy, i, j, k, t);
    TileAtIndex(cx, cy, k);
    ChunkDetails(world, Quantum(wave), cx, cy, wall);
    LayerOfSound(world, cx, cy, es, ChunkSize * ChunkSize, wall);
    LayerOfComplete(world, cx, cy, es, ChunkSize * ChunkSize, wall);
    var e := HybridTerrain(world.field, t.0, t.1, wave);
    assert es[k] == e;
    if e.Some? && DetailFor(world, e.value, wall) {
      assert DetailRecord(t, e.value, wall).tile == t;
    }
  }

  /** With the full texture table, a thin tree has no texture: its tile
      gets no detail, and since its element is not empty, no coin either. */
  lemma ThinTreeTileIsBare(world: World, gen: Generator, draws: Draws, p: Progress, t: (int, int))
    requires world.textures == LoadedTextures
    requires gen(t.0, t.1, p.used).0 == Some(TreeThin)
    ensures var q := PlaceTile(world, gen, draws, p, t).chunk;
      q.walls == p.chunk.walls && q.objects == p.chunk.objects && q.coins == p.chunk.coins
  {
    assert "tree_thin" != "tree_thin_fall";
    assert Name(TreeThin) !in LoadedTextures;
  }

  // ---------------------------------------------------------------------
  // update_chunks: the window of resident chunks
  // ---------------------------------------------------------------------

  /** The integers lo, lo + 1, ..., hi - 1. */
  function IntRange(lo: int, hi: int): (s: set<int>)
    ensures forall i :: i in s <==> lo <= i < hi
    decreases hi - lo
  {
    if lo >= hi then {} else {lo} + IntRange(lo + 1, hi)
  }

  /** Offsets -RenderDistance .. RenderDistance along one axis. */
  function WindowOffsets(): (s: set<int>)
    ensures forall i :: i in s <==> -RenderDistance <= i <= RenderDistance
  {
    IntRange(-RenderDistance, RenderDistance + 1)
  }

  /** The chunks within Chebyshev distance RenderDistance of the centre. */
  function Window(center: (int, int)): set<(int, int)>
  {
    set dx, dy | dx in WindowOffsets() && dy in WindowOffsets() :: (center.0 + dx, center.1 + dy)
  }

  lemma InWindow(center: (int, int), p: (int, int))
    ensures p in Window(center) <==>
      -RenderDistance <= p.0 - center.0 <= RenderDistance && -RenderDistance <= p.1 - center.1 <= RenderDistance
  {
    if -RenderDistance <= p.0 - center.0 <= RenderDistance && -RenderDistance <= p.1 - center.1 <= RenderDistance {
      var dx, dy := p.0 - center.0, p.1 - center.1;
      assert dx in WindowOffsets() && dy in WindowOffsets();
      assert p == (center.0 + dx, center.1 + dy);
    }
  }

  /** The chunks (x, y) with y0 <= y < y1, as a set built one by one. */
  ghost function Column(x: int, y0: int, y1: int): (s: set<(int, int)>)
    ensures forall p :: p in s <==> p.0 == x && y0 <= p.1 < y1
    ensures |s| == if y0 <= y1 then y1 - y0 else 0
    decreases y1 - y0
  {
    if y0 >= y1 then {} else {(x, y0)} + Column(x, y0 + 1, y1)
  }

  /** The chunks with x0 <= x < x1 and y0 <= y < y1, column by column. */
  ghost function Block(x0: int, x1: int, y0: int, y1: int): (s: set<(int, int)>)
    requires y0 <= y1
    ensures forall p :: p in s <==> x0 <= p.0 < x1 && y0 <= p.1 < y1
    ensures |s| == if x0 <= x1 then (x1 - x0) * (y1 - y0) else 0
    decreases x1 - x0
  {
    if x0 >= x1 then {}
    else
      var col, rest := Column(x0, y0, y1), Block(x0 + 1, x1, y0, y1);
      assert col !! rest;
      assert (x1 - x0) * (y1 - y0) == (y1 - y0) + (x1 - (x0 + 1)) * (y1 - y0);
      col + rest
  }

  /** The window holds (2R + 1)^2 = 81 distinct chunks. */
  lemma WindowSize(center: (int, int))
    ensures |Window(center)| == (2 * RenderDistance + 1) * (2 * RenderDistance + 1)
  {
    var b := Block(center.0 - RenderDistance, center.0 + RenderDistance + 1,
                   center.1 - RenderDistance, center.1 + RenderDistance + 1);
    forall p ensures p in Window(center) <==> p in b {
      InWindow(center, p);
    }
    assert Window(center) == b;
  }

  /** The first loop of update_chunks: collects the needed chunk set
      column by column. It ends with the whole window. */
  method ChunksNeeded(center: (int, int)) returns (needed: set<(int, int)>)
    ensures needed == Window(center)
    ensures |needed| == (2 * RenderDistance + 1) * (2 * RenderDistance + 1)
  {
    needed := {};
    for dx := -RenderDistance to RenderDistance + 1
      invariant forall p :: p in needed <==>
        -RenderDistance <= p.0 - center.0 < dx && -RenderDistance <= p.1 - center.1 <= RenderDistance
    {
      for dy := -RenderDistance to RenderDistance + 1
        invariant forall p :: p in needed <==>
          || (-RenderDistance <= p.0 - center.0 < dx && -RenderDistance <= p.1 - center.1 <= RenderDistance)
          || (p.0 - center.0 == dx && -RenderDistance <= p.1 - center.1 < dy)
      {
        needed := needed + {(center.0 + dx, center.1 + dy)};
      }
    }
    forall p ensures p in needed <==> p in Window(center) {
      InWindow(center, p);
    }
    assert needed == Window(center);
    WindowSize(center);
  }

  /** The chunk a generator in a given mode makes for each address. */
  function Fresh(world: World, mode: Mode): ((int, int)) -> Chunk
  {
    (p: (int, int)) => ChunkSpec(world, mode, p.0, p.1)
  }

  /** The resident map after update_chunks: every window chunk that was
      resident keeps its value, every other window chunk is made by
      `make`, and everything outside the window is dropped. */
  function Streamed(chunks: map<(int, int), Chunk>, center: (int, int), make: ((int, int)) -> Chunk): map<(int, int), Chunk>
  {
    map p | p in Window(center) :: if p in chunks then chunks[p] else make(p)
  }

  /** After streaming, the resident set is the window exactly; chunks still
      needed are kept, not regenerated; new ones are generated afresh. */
  lemma StreamedIsWindow(chunks: map<(int, int), Chunk>, center: (int, int), make: ((int, int)) -> Chunk)
    ensures Streamed(chunks, center, make).Keys == Window(center)
    ensures forall p :: p in chunks && p in Window(center) ==> Streamed(chunks, center, make)[p] == chunks[p]
    ensures forall p :: p !in chunks && p in Window(center) ==> Streamed(chunks, center, make)[p] == make(p)
  {
  }

  /** A map with the window's keys, keeping the resident values and making
      the rest, is the streamed map. */
  lemma StreamedByMembership(chunks: map<(int, int), Chunk>, center: (int, int), make: ((int, int)) -> Chunk, r: map<(int, int), Chunk>)
    requires forall q :: q in r <==> q in Window(center)
    requires forall q :: q in r ==> r[q] == if q in chunks then chunks[q] else make(q)
    ensures r == Streamed(chunks, center, make)
  {
  }

  /** A repeated call with the same centre changes nothing, even if the
      generator changed in between (another mode, say): resident chunks are
      never regenerated. */
  lemma StreamedIdempotent(chunks: map<(int, int), Chunk>, center: (int, int), make1: ((int, int)) -> Chunk, make2: ((int, int)) -> Chunk)
    ensures Streamed(Streamed(chunks, center, make1), center, make2) == Streamed(chunks, center, make1)
  {
    var once := Streamed(chunks, center, make1);
    var twice := Streamed(once, center, make2);
    assert twice.Keys == once.Keys;
  }

  /** When the resident set already is the window, streaming is a no-op. */
  lemma StreamedStable(chunks: map<(int, int), Chunk>, center: (int, int), make: ((int, int)) -> Chunk)
    requires chunks.Keys == Window(center)
    ensures Streamed(chunks, center, make) == chunks
  {
    var s := Streamed(chunks, center, make);
    assert s.Keys == chunks.Keys;
  }

  /** Moving the centre one chunk along x evicts exactly the trailing
      column of the old window and creates exactly the leading column of
      the new one. */
  lemma WindowShiftByOneColumn(center: (int, int), p: (int, int))
    ensures var next := (center.0 + 1, center.1);
      && (p in Window(center) && p !in Window(next) <==>
            p.0 == center.0 - RenderDistance && -RenderDistance <= p.1 - center.1 <= RenderDistance)
      && (p in Window(next) && p !in Window(center) <==>
            p.0 == center.0 + RenderDistance + 1 && -RenderDistance <= p.1 - center.1 <= RenderDistance)
  {
    InWindow(center, p);
    InWindow((center.0 + 1, center.1), p);
  }
}

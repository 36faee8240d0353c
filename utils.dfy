/** Coordinate conversion and collision geometry: the isometric projection
    of tiles to screen points, the screen-to-chunk addressing used to find
    the centre chunk, the collision set and the per-category hitboxes. */
module Utils {
  import opened Elements
  import opened Constants

  // ---------------------------------------------------------------------
  // iso_to_screen and its inverse
  // ---------------------------------------------------------------------

  /** Screen point of the centre of tile (x, y): half a tile width across
      per step of x - y, half a tile height up per step of x + y. */
  function IsoToScreen(x: int, y: int): (int, int)
  {
    ((x - y) * (TileWidth / 2), (x + y) * (TileHeight / 2))
  }

  /** The tile whose centre projects to screen point (sx, sy), if any:
      `x = (sx/64 + sy/32) / 2`, `y = (sy/32 - sx/64) / 2`. */
  function ScreenToIso(sx: int, sy: int): Option<(int, int)>
  {
    if sx % 64 == 0 && sy % 32 == 0 && (sx / 64 + sy / 32) % 2 == 0 then
      Some(((sx / 64 + sy / 32) / 2, (sy / 32 - sx / 64) / 2))
    else
      None
  }

  /** Every tile is recovered from its projection. */
  lemma IsoToScreenRoundTrip(x: int, y: int)
    ensures ScreenToIso(IsoToScreen(x, y).0, IsoToScreen(x, y).1) == Some((x, y))
  {
    var p := IsoToScreen(x, y);
    assert p.0 == (x - y) * 64 && p.1 == (x + y) * 32;
    assert p.0 / 64 == x - y && p.1 / 32 == x + y;
  }

  /** The inverse is exact: a screen point it maps to a tile is that
      tile's projection. */
  lemma ScreenToIsoRoundTrip(sx: int, sy: int)
    requires ScreenToIso(sx, sy).Some?
    ensures IsoToScreen(ScreenToIso(sx, sy).value.0, ScreenToIso(sx, sy).value.1) == (sx, sy)
  {
    var a, b := sx / 64, sy / 32;
    assert sx == a * 64 && sy == b * 32;
    var h := (a + b) / 2;
    assert a + b == 2 * h;
    var t := ScreenToIso(sx, sy).value;
    assert (b - a) == 2 * (h - a);
    assert t == (h, h - a);
  }

  /** Distinct tiles never share a screen point. */
  lemma IsoToScreenInjective(x1: int, y1: int, x2: int, y2: int)
    requires IsoToScreen(x1, y1) == IsoToScreen(x2, y2)
    ensures x1 == x2 && y1 == y2
  {
    IsoToScreenRoundTrip(x1, y1);
    IsoToScreenRoundTrip(x2, y2);
  }

  // ---------------------------------------------------------------------
  // screen_to_chunk
  // ---------------------------------------------------------------------

  function Abs(r: real): real
  {
    if r < 0.0 then -r else r
  }

  /** Conversion of a real to an integer by dropping the fraction, i.e.
      rounding toward zero (not toward minus infinity). */
  function TruncateTowardZero(r: real): int
  {
    if r >= 0.0 then r.Floor else -((-r).Floor)
  }

  lemma TruncateBounds(r: real)
    ensures r >= 0.0 ==> TruncateTowardZero(r) >= 0
    ensures r <= 0.0 ==> TruncateTowardZero(r) <= 0
    ensures Abs(TruncateTowardZero(r) as real) <= Abs(r) < Abs(TruncateTowardZero(r) as real) + 1.0
  {
  }

  /** Screen width of one chunk column and screen height of one chunk row. */
  const ChunkScreenWidth: real := (TileWidth * ChunkSize) as real / 2.0
  const ChunkScreenHeight: real := (TileHeight * ChunkSize) as real / 2.0

  /** Chunk address of a screen point: each coordinate divided by the
      chunk's screen extent (1024 across, 512 up) and truncated toward
      zero. */
  function ScreenToChunk(sx: real, sy: real): (int, int)
  {
    (TruncateTowardZero(sx / ChunkScreenWidth), TruncateTowardZero(sy / ChunkScreenHeight))
  }

  /** The sign of each chunk coordinate follows the sign of its input, and
      its magnitude counts the whole chunk extents in the input's. */
  lemma ScreenToChunkBounds(sx: real, sy: real)
    ensures var c := ScreenToChunk(sx, sy);
      && (sx >= 0.0 ==> c.0 >= 0)
      && (sx <= 0.0 ==> c.0 <= 0)
      && (sy >= 0.0 ==> c.1 >= 0)
      && (sy <= 0.0 ==> c.1 <= 0)
      && Abs(c.0 as real) * 1024.0 <= Abs(sx) < (Abs(c.0 as real) + 1.0) * 1024.0
      && Abs(c.1 as real) * 512.0 <= Abs(sy) < (Abs(c.1 as real) + 1.0) * 512.0
  {
    assert ChunkScreenWidth == 1024.0 && ChunkScreenHeight == 512.0;
    TruncateBounds(sx / 1024.0);
    TruncateBounds(sy / 512.0);
    assert Abs(sx / 1024.0) * 1024.0 == Abs(sx);
    assert Abs(sy / 512.0) * 512.0 == Abs(sy);
  }

  /** The chunk column of a screen x coordinate, in full: column 0 is the
      open interval (-1024, 1024), twice as wide as every other column;
      a positive column k covers [1024k, 1024(k+1)) and a negative column k
      covers (1024(k-1), 1024k]. */
  lemma ScreenChunkColumn(sx: real, sy: real, k: int)
    ensures ScreenToChunk(sx, sy).0 == k <==>
      || (k == 0 && -1024.0 < sx < 1024.0)
      || (k > 0 && k as real * 1024.0 <= sx < (k + 1) as real * 1024.0)
      || (k < 0 && (k - 1) as real * 1024.0 < sx <= k as real * 1024.0)
  {
    var c := ScreenToChunk(sx, sy).0;
    ScreenToChunkBounds(sx, sy);
    if c > 0 {
      assert c as real * 1024.0 <= sx < (c + 1) as real * 1024.0;
    } else if c < 0 {
      assert (c - 1) as real * 1024.0 < sx <= c as real * 1024.0;
    }
    if k > 0 && k as real * 1024.0 <= sx < (k + 1) as real * 1024.0 {
      assert c > 0;
    }
    if k < 0 && (k - 1) as real * 1024.0 < sx <= k as real * 1024.0 {
      assert c < 0;
    }
  }

  // ---------------------------------------------------------------------
  // has_collision
  // ---------------------------------------------------------------------

  /** Element names that block movement. */
  const CollisionTypes: set<string> := {
    "tree_blocks_fall", "tree_fat_fall", "tree_thin_fall", "tree_tall_fall",
    "tree_default_fall", "tree_oak_fall",
    "stone_tall", "stone_large", "log", "log_large"}

  function HasCollision(elementType: string): bool
  {
    elementType in CollisionTypes
  }

  /** Over the feature palette, exactly the thin tree and the small bush
      are walkable; every other feature blocks. */
  lemma FeatureCollision(f: Feature)
    ensures HasCollision(Name(f)) <==> f != TreeThin && f != BushSmall
  {
    if f == TreeThin {
      assert Name(f)[5..] == "thin";
      assert forall s | s in CollisionTypes :: s != Name(f);
    } else if f == BushSmall {
      assert Name(f)[0] == 'b';
    }
  }

  // ---------------------------------------------------------------------
  // get_hitbox_for_element
  // ---------------------------------------------------------------------

  predicate StartsWith(s: string, t: string)
  {
    |t| <= |s| && s[..|t|] == t
  }

  /** `t` occurs in `s` as a substring. */
  predicate Contains(s: string, t: string)
    decreases |s|
  {
    StartsWith(s, t) || (|s| > 0 && Contains(s[1..], t))
  }

  /** A string without the letter pair "tr" does not contain "tree". */
  lemma {:induction false} NoTreeWithoutTr(s: string)
    requires forall i :: 0 <= i < |s| - 1 ==> !(s[i] == 't' && s[i + 1] == 'r')
    ensures !Contains(s, "tree")
    decreases |s|
  {
    if |s| >= 4 {
      assert !(s[0] == 't' && s[1] == 'r');
      assert s[..4][0] == s[0] && s[..4][1] == s[1];
    }
    if |s| > 0 {
      forall i | 0 <= i < |s[1..]| - 1
        ensures !(s[1..][i] == 't' && s[1..][i + 1] == 'r')
      {
        assert s[1..][i] == s[i + 1] && s[1..][i + 1] == s[i + 2];
      }
      NoTreeWithoutTr(s[1..]);
    }
  }

  /** Base hitbox extent: 30% of the tile's width and height. */
  const HitboxWidth: real := TileWidth as real * 0.3
  const HitboxHeight: real := TileHeight as real * 0.3

  /** Four vertices of the rectangle [-halfWidth, halfWidth] x [bottom, top],
      counter-clockwise from the bottom left. */
  function Rect(halfWidth: real, bottom: real, top: real): seq<(real, real)>
  {
    [(-halfWidth, bottom), (halfWidth, bottom), (halfWidth, top), (-halfWidth, top)]
  }

  /** Four vertices forming an axis-aligned rectangle of positive size,
      symmetric about x = 0, listed bottom-left, bottom-right, top-right,
      top-left. */
  ghost predicate CentredBox(box: seq<(real, real)>)
  {
    && |box| == 4
    && box[0].0 < 0.0 && box[1].0 == -box[0].0
    && box[2].0 == box[1].0 && box[3].0 == box[0].0
    && box[0].1 == box[1].1 && box[2].1 == box[3].1
    && box[0].1 < box[2].1
  }

  /** Hitbox of an element, by category. Any name containing "tree" gets
      the tall trunk box, whatever else it contains; the large stone, the
      logs and the tall stone get their own boxes; anything else gets a
      box of the base extent centred on the sprite. */
  function HitboxForElement(element: string): (box: seq<(real, real)>)
    ensures CentredBox(box)
    ensures Contains(element, "tree") ==> box == Rect(HitboxWidth * 0.45, -HitboxHeight * 3.0, HitboxHeight * 0.8)
    ensures !Contains(element, "tree") && element !in {"stone_large", "log", "log_large", "stone_tall"} ==>
      box == Rect(HitboxWidth / 2.0, -HitboxHeight / 2.0, HitboxHeight / 2.0)
  {
    if Contains(element, "tree") then
      Rect(HitboxWidth * 0.45, -HitboxHeight * 3.0, HitboxHeight * 0.8)
    else if element == "stone_large" then
      Rect(HitboxWidth * 0.8, -HitboxHeight * 1.2, HitboxHeight * 0.6)
    else if element in ["log", "log_large"] then
      Rect(HitboxWidth * 0.9, -HitboxHeight * 1.0, HitboxHeight * 0.5)
    else if element == "stone_tall" then
      Rect(HitboxWidth * 0.6, -HitboxHeight * 0.8, HitboxHeight * 0.4)
    else
      Rect(HitboxWidth / 2.0, -HitboxHeight / 2.0, HitboxHeight / 2.0)
  }

  /** The feature categories seen by the hitbox rule: every tree name
      contains "tree", no stone, log or bush name does, and the small bush
      falls through to the default box. */
  lemma FeatureHitboxCategory(f: Feature)
    ensures Contains(Name(f), "tree") <==> f in {TreeThin, TreeThinFall, TreeFatFall, TreeOakFall, TreeBlocksFall, TreeDefaultFall, TreeTallFall}
    ensures f == BushSmall ==> HitboxForElement(Name(f)) == Rect(HitboxWidth / 2.0, -HitboxHeight / 2.0, HitboxHeight / 2.0)
  {
    match f
    case StoneTall => NoTreeWithoutTr(Name(f));
    case StoneLarge => NoTreeWithoutTr(Name(f));
    case Log => NoTreeWithoutTr(Name(f));
    case LogLarge => NoTreeWithoutTr(Name(f));
    case BushSmall => NoTreeWithoutTr(Name(f));
    case _ => assert StartsWith(Name(f), "tree");
  }
}

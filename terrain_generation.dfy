/** Feature classification of terrain densities: the threshold chain used by
    the phase and Y-rotation variants, the classification tail of the
    stand-alone quantum variant, and the per-tile hybrid choice between the
    two variants. The densities themselves come from a trigonometric phase
    pipeline; the model takes them as given functions of the tile. */
module TerrainGeneration {
  import opened Elements

  /** The density producers. `phaseDensity` and `ryDensity` are what the
      phase-based and the Y-rotation-based variants measure before
      classification; `quantumDensity` and `quantumVariation` are the two
      measurements that the stand-alone quantum variant blends. */
  datatype Field = Field(
    phaseDensity: (int, int) -> real,
    ryDensity: (int, int) -> real,
    quantumDensity: (int, int) -> real,
    quantumVariation: (int, int) -> real)

  // ---------------------------------------------------------------------
  // Threshold bands, in general
  // ---------------------------------------------------------------------

  /** Number of leading cut points that `d` has reached: with ascending cut
      points, the index of the half-open band holding `d`. */
  function Band(cuts: seq<real>, d: real): (k: nat)
    ensures k <= |cuts|
  {
    if cuts == [] || d < cuts[0] then 0 else 1 + Band(cuts[1..], d)
  }

  ghost predicate Ascending(cuts: seq<real>)
  {
    forall i, j :: 0 <= i < j < |cuts| ==> cuts[i] < cuts[j]
  }

  /** `d` lies in the half-open band `k` of the cut points. */
  ghost predicate InBand(cuts: seq<real>, d: real, k: nat)
  {
    k <= |cuts| && (k == 0 || cuts[k - 1] <= d) && (k == |cuts| || d < cuts[k])
  }

  /** The band index puts `d` between the cut points around it. */
  lemma {:induction false} BandIsInterval(cuts: seq<real>, d: real)
    requires Ascending(cuts)
    ensures InBand(cuts, d, Band(cuts, d))
  {
    if cuts != [] && d >= cuts[0] {
      BandIsInterval(cuts[1..], d);
    }
  }

  /** The bands partition the reals: `d` lies in no band but `Band(cuts, d)`. */
  lemma {:induction false} BandIsUnique(cuts: seq<real>, d: real, k: nat)
    requires Ascending(cuts)
    requires InBand(cuts, d, k)
    ensures Band(cuts, d) == k
  {
    if k > 0 {
      assert cuts[0] <= cuts[k - 1];
      BandIsUnique(cuts[1..], d, k - 1);
    } else if cuts != [] {
      assert d < cuts[0];
    }
  }

  /** A larger density never falls in a lower band. */
  lemma {:induction false} BandMonotone(cuts: seq<real>, d1: real, d2: real)
    requires d1 <= d2
    ensures Band(cuts, d1) <= Band(cuts, d2)
  {
    if cuts != [] && d1 >= cuts[0] {
      BandMonotone(cuts[1..], d1, d2);
    }
  }

  // ---------------------------------------------------------------------
  // terrain_type_from_density
  // ---------------------------------------------------------------------

  const DensityCuts: seq<real> := [0.35, 0.45, 0.60, 0.65, 0.70, 0.75, 0.80]

  /** The label of each density band, lowest band first. */
  const DensityLabels: seq<Option<Feature>> := [
    None, Some(TreeThin), Some(TreeOakFall), Some(TreeFatFall),
    Some(StoneLarge), Some(StoneTall), Some(Log), Some(BushSmall)]

  /** Classifies a density by the ordered threshold chain. Below 0.35 the
      tile stays empty; from 0.80 up it holds a small bush. */
  function TerrainTypeFromDensity(d: real): (r: Option<Feature>)
    ensures r.None? <==> d < 0.35
    ensures r == Some(BushSmall) <==> d >= 0.80
    ensures r in DensityLabels
  {
    if d < 0.35 then None
    else if d < 0.45 then Some(TreeThin)
    else if d < 0.60 then Some(TreeOakFall)
    else if d < 0.65 then Some(TreeFatFall)
    else if d < 0.70 then Some(StoneLarge)
    else if d < 0.75 then Some(StoneTall)
    else if d < 0.80 then Some(Log)
    else Some(BushSmall)
  }

  lemma DensityCutsAscending()
    ensures Ascending(DensityCuts)
  {
  }

  /** The threshold chain is the band table: the label of a density is the
      label of the band the density falls in. */
  lemma DensityClassifierIsBandTable(d: real)
    ensures |DensityLabels| == |DensityCuts| + 1
    ensures TerrainTypeFromDensity(d) == DensityLabels[Band(DensityCuts, d)]
  {
    DensityCutsAscending();
    BandIsInterval(DensityCuts, d);
  }

  /** Each label of the chain is returned exactly on its half-open band
      ([0.35, 0.45) for `tree_thin`, and so on). */
  lemma DensityBandExact(d: real, k: nat)
    requires k < |DensityLabels|
    ensures TerrainTypeFromDensity(d) == DensityLabels[k] <==> InBand(DensityCuts, d, k)
  {
    DensityClassifierIsBandTable(d);
    DensityCutsAscending();
    BandIsInterval(DensityCuts, d);
    if InBand(DensityCuts, d, k) {
      BandIsUnique(DensityCuts, d, k);
    }
  }

  /** The band index of the chain is monotone in the density. */
  lemma DensityBandMonotone(d1: real, d2: real)
    requires d1 <= d2
    ensures Band(DensityCuts, d1) <= Band(DensityCuts, d2)
    ensures Band(DensityCuts, d1) == |DensityCuts| ==> TerrainTypeFromDensity(d2) == Some(BushSmall)
  {
    BandMonotone(DensityCuts, d1, d2);
    DensityClassifierIsBandTable(d2);
  }

  // ---------------------------------------------------------------------
  // quantum_terrain
  // ---------------------------------------------------------------------

  /** Weighted blend of the quantum variant's two measurements. */
  function Blend(density: real, variation: real): real
  {
    (density + 0.6 * variation) / 1.6
  }

  /** The blend is a convex combination: it lies between its two inputs,
      so it stays in [0, 1] when both measurements do. */
  lemma BlendBetween(density: real, variation: real)
    ensures density <= variation ==> density <= Blend(density, variation) <= variation
    ensures variation <= density ==> variation <= Blend(density, variation) <= density
    ensures 0.0 <= density <= 1.0 && 0.0 <= variation <= 1.0 ==> 0.0 <= Blend(density, variation) <= 1.0
  {
  }

  const QuantumCuts: seq<real> := [0.75, 0.78, 0.80, 0.82, 0.85, 0.87]

  /** Label of each band of the quantum variant; the top band is split by
      the tile's coordinates instead of by density. */
  function QuantumBandLabel(k: nat, x: int, y: int): Option<Feature>
  {
    if k == 0 then None
    else if k == 1 then Some(TreeThinFall)
    else if k == 2 then Some(TreeFatFall)
    else if k == 3 then Some(TreeOakFall)
    else if k == 4 then Some(StoneLarge)
    else if k == 5 then Some(Log)
    else if (x + y) % 3 == 0 then Some(StoneTall)
    else Some(BushSmall)
  }

  /** The classification tail of the quantum variant. */
  function QuantumClassify(combined: real, x: int, y: int): (r: Option<Feature>)
    ensures r.None? <==> combined < 0.75
    ensures r == Some(StoneTall) <==> combined >= 0.87 && (x + y) % 3 == 0
    ensures r == Some(BushSmall) <==> combined >= 0.87 && (x + y) % 3 != 0
  {
    if combined < 0.75 then None
    else if combined < 0.78 then Some(TreeThinFall)
    else if combined < 0.80 then Some(TreeFatFall)
    else if combined < 0.82 then Some(TreeOakFall)
    else if combined < 0.85 then Some(StoneLarge)
    else if combined < 0.87 then Some(Log)
    else if (x + y) % 3 == 0 then Some(StoneTall)
    else Some(BushSmall)
  }

  /** The quantum chain is its band table, with the coordinate tie-break
      deciding the top band. */
  lemma QuantumClassifierIsBandTable(combined: real, x: int, y: int)
    ensures QuantumClassify(combined, x, y) == QuantumBandLabel(Band(QuantumCuts, combined), x, y)
  {
    assert Ascending(QuantumCuts);
    BandIsInterval(QuantumCuts, combined);
  }

  /** The stand-alone quantum variant: blend, then classify. */
  function QuantumTerrain(field: Field, x: int, y: int): Option<Feature>
  {
    QuantumClassify(Blend(field.quantumDensity(x, y), field.quantumVariation(x, y)), x, y)
  }

  // ---------------------------------------------------------------------
  // hybrid_terrain
  // ---------------------------------------------------------------------

  datatype Variant = PhaseVariant | RyVariant

  /** Which variant classifies a tile. Out of wave mode the phase variant
      takes the tiles whose coordinate sum is below 5 modulo 7; in wave mode
      the Y-rotation variant takes those whose coordinate product is below 3
      modulo 5. Dafny's `%` with a positive divisor returns the same
      non-negative remainder as the game's, also for negative tiles. */
  function HybridVariant(x: int, y: int, waveMode: bool): Variant
  {
    if !waveMode then
      if (x + y) % 7 < 5 then PhaseVariant else RyVariant
    else
      if (x * y) % 5 < 3 then RyVariant else PhaseVariant
  }

  function VariantDensity(field: Field, v: Variant, x: int, y: int): real
  {
    match v
    case PhaseVariant => field.phaseDensity(x, y)
    case RyVariant => field.ryDensity(x, y)
  }

  /** Both variants end in the same threshold chain, so the hybrid label is
      always one that the chain can return. */
  function HybridTerrain(field: Field, x: int, y: int, waveMode: bool): (r: Option<Feature>)
    ensures r in DensityLabels
  {
    TerrainTypeFromDensity(VariantDensity(field, HybridVariant(x, y, waveMode), x, y))
  }

  /** Number of tiles (x0 + i, y) with 0 <= i < n that the phase variant
      takes out of wave mode. */
  function CalmPhaseCount(x0: int, y: int, n: nat): nat
  {
    if n == 0 then 0
    else CalmPhaseCount(x0, y, n - 1) + (if HybridVariant(x0 + n - 1, y, false) == PhaseVariant then 1 else 0)
  }

  /** Out of wave mode, exactly five of any seven consecutive tiles along a
      row use the phase variant, wherever the row starts (negative tiles
      included). */
  lemma CalmModeFiveInSeven(x0: int, y: int)
    ensures CalmPhaseCount(x0, y, 7) == 5
  {
    var q, r := (x0 + y) / 7, (x0 + y) % 7;
    assert x0 + y == q * 7 + r;
    CalmTile(x0, y, q, r, 0); CalmTile(x0, y, q, r, 1); CalmTile(x0, y, q, r, 2);
    CalmTile(x0, y, q, r, 3); CalmTile(x0, y, q, r, 4); CalmTile(x0, y, q, r, 5);
    CalmTile(x0, y, q, r, 6);
    var c := CalmPhaseCount(x0, y, 0);
    assert CalmPhaseCount(x0, y, 1) == c + Bit(r);
    assert CalmPhaseCount(x0, y, 2) == CalmPhaseCount(x0, y, 1) + Bit(r + 1);
    assert CalmPhaseCount(x0, y, 3) == CalmPhaseCount(x0, y, 2) + Bit(r + 2);
    assert CalmPhaseCount(x0, y, 4) == CalmPhaseCount(x0, y, 3) + Bit(r + 3);
    assert CalmPhaseCount(x0, y, 5) == CalmPhaseCount(x0, y, 4) + Bit(r + 4);
    assert CalmPhaseCount(x0, y, 6) == CalmPhaseCount(x0, y, 5) + Bit(r + 5);
    assert CalmPhaseCount(x0, y, 7) == CalmPhaseCount(x0, y, 6) + Bit(r + 6);
  }

  /** 1 when residue `s` (taken once more modulo 7) is a phase residue. */
  function Bit(s: int): nat
  {
    if (if s < 7 then s else s - 7) < 5 then 1 else 0
  }

  lemma CalmTile(x0: int, y: int, q: int, r: int, i: int)
    requires x0 + y == q * 7 + r && 0 <= r < 7 && 0 <= i < 7
    ensures (if HybridVariant(x0 + i, y, false) == PhaseVariant then 1 else 0) == Bit(r + i)
  {
    assert x0 + i + y == q * 7 + (r + i);
    ModSevenAddMultiple(r + i, q);
  }

  lemma ModSevenAddMultiple(b: int, q: int)
    ensures (q * 7 + b) % 7 == b % 7
  {
  }

  lemma ModFiveAddMultiple(b: int, q: int)
    ensures (q * 5 + b) % 5 == b % 5
  {
  }

  /** In wave mode the choice depends only on the coordinates modulo 5, and
      tiles on a row or column divisible by 5 always use the Y-rotation
      variant. */
  lemma WaveModePeriodic(x: int, y: int)
    ensures HybridVariant(x + 5, y, true) == HybridVariant(x, y, true)
    ensures HybridVariant(x, y + 5, true) == HybridVariant(x, y, true)
    ensures x % 5 == 0 || y % 5 == 0 ==> HybridVariant(x, y, true) == RyVariant
  {
    assert (x + 5) * y == y * 5 + x * y;
    ModFiveAddMultiple(x * y, y);
    assert x * (y + 5) == x * 5 + x * y;
    ModFiveAddMultiple(x * y, x);
    if x % 5 == 0 {
      assert x * y == (x / 5 * y) * 5;
      ModFiveAddMultiple(0, x / 5 * y);
    } else if y % 5 == 0 {
      assert x * y == (x * (y / 5)) * 5;
      ModFiveAddMultiple(0, x * (y / 5));
    }
  }
}

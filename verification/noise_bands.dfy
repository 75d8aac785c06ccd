/**
 * The noise predicates of the default world (js/default.js) and of the LPC
 * mod (js/mods/default/tileset_lpc.js).  The two files define the same
 * predicates under two sets of names (`noise_tile_floor_25` and
 * `lpc_noise_tile_floor_25`, and so on), each over its own noise function;
 * they are defined once here.  A noise function is the parameter `noise`
 * (terrain noise at a cell), and a brush predicate receives the terrain
 * and road noise of its cell as the reals `terrain` and `road`.
 */
module NoiseBands {
  import opened Wrappers

  /** The half-open interval `lo < n <= hi` every tile band is written as. */
  predicate InBand(lo: real, hi: real, n: real) {
    lo < n <= hi
  }

  // ---------------------------------------------------------------------------
  // Floor-centre bands: noise_tile_floor_25 .. noise_tile_floor_100
  // ---------------------------------------------------------------------------

  /** Band k (0 to 3) of the floor centre: `floor_25`, `floor_50`, `floor_75`, `floor_100`. */
  predicate FloorBand(k: int, n: real) {
    match k
    case 0 => InBand(0.0, 0.25, n)
    case 1 => InBand(0.25, 0.5, n)
    case 2 => InBand(0.5, 0.75, n)
    case 3 => InBand(0.75, 1.0, n)
    case _ => false
  }

  /**
   * The one band holding `n`: the four bands partition (0, 1], so a noise
   * value in that range selects exactly one of them and any other selects
   * none.
   */
  function FloorBandOf(n: real): (k: Option<int>)
    ensures k.Some? <==> 0.0 < n <= 1.0
    ensures k.Some? ==> 0 <= k.value < 4 && FloorBand(k.value, n)
    ensures forall j :: FloorBand(j, n) ==> k == Some(j)
  {
    if n <= 0.0 || 1.0 < n then None
    else if n <= 0.25 then Some(0)
    else if n <= 0.5 then Some(1)
    else if n <= 0.75 then Some(2)
    else Some(3)
  }

  // ---------------------------------------------------------------------------
  // Path bands: noise_tile_path_1, noise_tile_path_2
  // ---------------------------------------------------------------------------

  predicate PathBand(k: int, n: real) {
    (k == 1 && InBand(0.0, 0.05, n)) || (k == 2 && InBand(0.05, 0.1, n))
  }

  /**
   * The two path bands never hold together, together they hold exactly on
   * (0, 0.1], and a path band only holds where the first floor band does.
   */
  lemma PathBands(n: real)
    ensures !(PathBand(1, n) && PathBand(2, n))
    ensures PathBand(1, n) || PathBand(2, n) <==> 0.0 < n <= 0.1
    ensures forall k :: PathBand(k, n) ==> FloorBand(0, n)
  {
  }

  // ---------------------------------------------------------------------------
  // Cave gates: noise_tile_cave_true, noise_tile_cave_false
  // ---------------------------------------------------------------------------

  /** `cave_true`: the noise is read at row 0 of the column, whatever `y` and `layer` are. */
  predicate CaveTrue(noise: (int, int) -> real, x: int, y: int, layer: int) {
    noise(x, 0) <= 0.05
  }

  predicate CaveFalse(noise: (int, int) -> real, x: int, y: int, layer: int) {
    noise(x, 0) > 0.05
  }

  /**
   * The two cave gates are complements at every cell, and both keep one
   * answer along a whole column and across layers.
   */
  lemma CaveGates(noise: (int, int) -> real, x: int, y: int, layer: int, y': int, layer': int)
    ensures CaveTrue(noise, x, y, layer) <==> !CaveFalse(noise, x, y, layer)
    ensures CaveTrue(noise, x, y, layer) == CaveTrue(noise, x, y', layer')
    ensures CaveFalse(noise, x, y, layer) == CaveFalse(noise, x, y', layer')
  {
  }

  // ---------------------------------------------------------------------------
  // Brush predicates: noise_brush_terrain / lpc_noise_terrain, noise_brush_road / lpc_noise_road
  // ---------------------------------------------------------------------------

  /** `0.9875 ** e` for a whole exponent: the island threshold of layer `e`. */
  function Decay(e: nat): real {
    if e == 0 then 1.0 else IslandDecay * Decay(e - 1)
  }

  /** The rate at which islands thin out per layer above layer 1. */
  const IslandDecay: real := 0.9875

  /** The threshold of layers 0 and 1. */
  const GroundThreshold: real := 0.9995

  /** Terrain above layer 1 must keep clear of cells whose road noise reaches this. */
  const RoadClearance: real := 0.975

  /** The terrain brush paints a cell of `layer` with terrain noise `terrain` and road noise `road`. */
  predicate BrushTerrain(terrain: real, road: real, layer: int) {
    if layer > 1 then terrain <= Decay(layer as nat) && road < RoadClearance
    else terrain <= GroundThreshold
  }

  /** The road brush paints a cell whose road noise reaches 0.7. */
  predicate BrushRoad(road: real) {
    road >= 0.7
  }

  /** The threshold is positive and shrinks from layer to layer. */
  lemma {:induction false} DecayShrinks(e: nat, e': nat)
    requires e <= e'
    ensures 0.0 < Decay(e') <= Decay(e)
    decreases e'
  {
    if e' > 0 {
      DecayShrinks(if e == e' then 0 else e, e' - 1);
    }
  }

  /**
   * Islands get rarer with height: a cell the terrain brush paints on a
   * layer above 1 is also painted on every lower layer, down to layers 0
   * and 1, whose threshold is the loosest.
   */
  lemma IslandsThinOut(terrain: real, road: real, layer: int, lower: int)
    requires lower <= layer
    requires BrushTerrain(terrain, road, layer)
    ensures BrushTerrain(terrain, road, lower)
  {
    if layer > 1 {
      if lower > 1 {
        DecayShrinks(lower as nat, layer as nat);
      } else {
        DecayShrinks(1, layer as nat);
      }
    }
  }

  /**
   * Above layer 1 the terrain brush only paints away from the road's core:
   * such a cell has road noise below 0.975 and terrain noise at most
   * 0.9875 squared.
   */
  lemma UpperTerrainAvoidsRoad(terrain: real, road: real, layer: int)
    requires layer > 1 && BrushTerrain(terrain, road, layer)
    ensures road < RoadClearance
    ensures terrain <= IslandDecay * IslandDecay
  {
    DecayShrinks(2, layer as nat);
  }
}

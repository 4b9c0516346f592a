/**
 * The simulation's physical constants (src/game/constants.ts). Spatial values are
 * centimetres unless the name ends in PX; JavaScript numbers are modelled as reals.
 */
module Constants {

  const WORLD_WIDTH_CM: real := 5.0
  const WORLD_HEIGHT_CM: real := 5.0

  const AMOEBA_DIAMETER_CM: real := 0.025
  const AMOEBA_RADIUS_CM: real := AMOEBA_DIAMETER_CM / 2.0

  const PIXELS_PER_CM: real := 1200.0

  const WORLD_WIDTH_PX: real := WORLD_WIDTH_CM * PIXELS_PER_CM
  const WORLD_HEIGHT_PX: real := WORLD_HEIGHT_CM * PIXELS_PER_CM

  const AMOEBA_RADIUS_PX: real := AMOEBA_RADIUS_CM * PIXELS_PER_CM
  const AMOEBA_DIAMETER_PX: real := AMOEBA_DIAMETER_CM * PIXELS_PER_CM

  // Vision
  const AMOEBA_VISION_CM: real := 0.3
  const AMOEBA_VISION_PX: real := AMOEBA_VISION_CM * PIXELS_PER_CM
  const ENEMY_VISION_CM: real := 0.05
  const ENEMY_VISION_PX: real := ENEMY_VISION_CM * PIXELS_PER_CM

  // Movement
  const MIN_MOVE_BODY_LENGTHS: real := 0.5
  const MAX_MOVE_BODY_LENGTHS: real := 5.0
  const MOVE_ENERGY_COST_PER_BODY_LENGTH: real := 0.1

  /** One entry of the hexagonal direction table: an angle in degrees and its label (`name`). */
  datatype HexDirection = HexDirection(angle: int, name: string)

  const HEX_DIRECTIONS: seq<HexDirection> := [
    HexDirection(0, "right"),
    HexDirection(60, "upper-right"),
    HexDirection(120, "upper-left"),
    HexDirection(180, "left"),
    HexDirection(240, "lower-left"),
    HexDirection(300, "lower-right")
  ]

  // Energy
  const STARTING_ENERGY: real := 50.0
  const MAX_ENERGY: real := 100.0
  const MIN_ENERGY: real := 0.0
  const DIVISION_ENERGY_THRESHOLD: real := 90.0
  const FEEDING_GAIN_PER_CYCLE: real := 1.0
  const POISON_DRAIN_PER_CYCLE: real := 1.0
  const ENEMY_DRAIN_PER_CYCLE: real := 2.0
  const ENEMY_DRAIN_RADIUS_MULTIPLIER: real := 2.0

  // Food
  const MAX_FOOD_RADIUS_CM: real := 0.1
  const MIN_FOOD_RADIUS_CM: real := 0.005
  const FOOD_MIN_ENERGY: int := 2
  const FOOD_MAX_ENERGY: int := 200
  const FOOD_HALO_MULTIPLIER: real := 2.0
  const FOOD_POISON_DECAY_PER_CYCLE: real := 0.1
  const DECAY_DEPLETION_THRESHOLD: real := 0.1

  // Poison
  const MAX_POISON_RADIUS_CM: real := 0.1
  const MIN_POISON_RADIUS_CM: real := 0.005
  const POISON_MIN_ENERGY: int := 2
  const POISON_MAX_ENERGY: int := 200

  // Spawn counts
  const INITIAL_FOOD_COUNT: nat := 50
  const INITIAL_POISON_COUNT: nat := 15
  const INITIAL_ENEMY_COUNT: nat := 10
  const FOOD_RESPAWN_INTERVAL_CYCLES: nat := 5
  const POISON_RESPAWN_INTERVAL_CYCLES: nat := 10
  const MIN_ENEMY_SPAWN_DISTANCE_CM: real := 0.5

  // Animation and cycle timing
  const MOVE_TWEEN_DURATION_MS: nat := 600
  const DEFAULT_CYCLE_INTERVAL_MS: nat := 2000

  /** Centimetres to pixels; dividing the result by the scale gives the input back. */
  function CmToPx(cm: real): (px: real)
    ensures px / PIXELS_PER_CM == cm
  {
    cm * PIXELS_PER_CM
  }

  /** Pixels to centimetres; multiplying the result by the scale gives the input back. */
  function PxToCm(px: real): (cm: real)
    ensures cm * PIXELS_PER_CM == px
  {
    px / PIXELS_PER_CM
  }

  /** The two conversions are inverse to each other over the reals. */
  lemma ConversionRoundTrip(x: real)
    ensures PxToCm(CmToPx(x)) == x
    ensures CmToPx(PxToCm(x)) == x
  {
  }

  /** The derived pixel sizes. The vision radius is 360 px (the source comment says 120). */
  lemma DerivedSizes()
    ensures AMOEBA_RADIUS_CM == 0.0125
    ensures AMOEBA_RADIUS_PX == 15.0 && AMOEBA_DIAMETER_PX == 30.0
    ensures WORLD_WIDTH_PX == 6000.0 && WORLD_HEIGHT_PX == 6000.0
    ensures AMOEBA_VISION_PX == 360.0 && ENEMY_VISION_PX == 60.0
    ensures CmToPx(WORLD_WIDTH_CM) == WORLD_WIDTH_PX
  {
  }

  /** The move range and the energy thresholds are ordered as the rules need. */
  lemma ConstantOrdering()
    ensures 0.0 < MIN_MOVE_BODY_LENGTHS <= MAX_MOVE_BODY_LENGTHS
    ensures MIN_ENERGY <= STARTING_ENERGY <= DIVISION_ENERGY_THRESHOLD <= MAX_ENERGY
    ensures DIVISION_ENERGY_THRESHOLD / 2.0 < STARTING_ENERGY
    ensures MIN_FOOD_RADIUS_CM < MAX_FOOD_RADIUS_CM && FOOD_MIN_ENERGY < FOOD_MAX_ENERGY
  {
  }

  /** The hexagonal table has six entries whose angles step by 60 degrees from 0. */
  lemma HexDirectionsTable()
    ensures |HEX_DIRECTIONS| == 6
    ensures forall i :: 0 <= i < |HEX_DIRECTIONS| ==> HEX_DIRECTIONS[i].angle == 60 * i
  {
  }
}

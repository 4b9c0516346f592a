/**
 * Positions, clamping and the collaborators the shown code relies on without defining:
 * the distance function behind `Math.sqrt`/`Phaser.Math.Distance.Between`, the `DIRECTIONS`
 * table of unit offsets behind `cos`/`sin`, and `AMOEBA_DEATH_ENERGY_THRESHOLD`.
 */
module Geometry {
  import opened Constants

  datatype Pos = Pos(x: real, y: real)

  /** A direction as the offsets `cos(angle)` and `sin(angle)` of its angle. */
  datatype DirOffset = DirOffset(cos: real, sin: real)

  /**
   * The environment of the entity rules: `dist` is the Euclidean distance (left abstract,
   * since the reals have no square root here), `directions` the imported `DIRECTIONS`
   * table and `deathThreshold` the imported `AMOEBA_DEATH_ENERGY_THRESHOLD`.
   */
  datatype Env = Env(dist: (Pos, Pos) -> real, directions: seq<DirOffset>, deathThreshold: real) {
    /** What a square root of a sum of squares guarantees and the energy rules rely on. */
    ghost predicate DistNonNegative() {
      forall p, q :: dist(p, q) >= 0.0
    }
  }

  function Min(a: real, b: real): (r: real)
    ensures r <= a && r <= b && (r == a || r == b)
  {
    if a <= b then a else b
  }

  function Max(a: real, b: real): (r: real)
    ensures r >= a && r >= b && (r == a || r == b)
  {
    if a >= b then a else b
  }

  /** `Phaser.Math.Clamp(v, lo, hi)`, that is `max(lo, min(hi, v))`. */
  function Clamp(v: real, lo: real, hi: real): (r: real)
    ensures lo <= hi ==> lo <= r <= hi
    ensures lo <= v <= hi ==> r == v
  {
    Max(lo, Min(hi, v))
  }

  /** A pixel position clamped into the 5 cm x 5 cm world. */
  function ClampToWorld(p: Pos): (q: Pos)
    ensures InWorld(q)
    ensures InWorld(p) ==> q == p
  {
    Pos(Clamp(p.x, 0.0, CmToPx(WORLD_WIDTH_CM)), Clamp(p.y, 0.0, CmToPx(WORLD_HEIGHT_CM)))
  }

  ghost predicate InWorld(p: Pos) {
    0.0 <= p.x <= CmToPx(WORLD_WIDTH_CM) && 0.0 <= p.y <= CmToPx(WORLD_HEIGHT_CM)
  }

  /** The `positionCm` getter of every entity: its pixel position divided by the scale. */
  function ToCm(p: Pos): (q: Pos)
    ensures CmToPx(q.x) == p.x && CmToPx(q.y) == p.y
  {
    Pos(PxToCm(p.x), PxToCm(p.y))
  }

  /** The offset from `from` to `to`. */
  function Offset(from: Pos, to: Pos): (d: Pos)
    ensures from.x + d.x == to.x && from.y + d.y == to.y
  {
    Pos(to.x - from.x, to.y - from.y)
  }
}

/**
 * Food and poison fields: a piecewise-linear intensity around a core of radius `r` with a
 * halo of radius 2r, energy handed out by food, and the per-cycle decay of both.
 */
module Resources {
  import opened Constants
  import opened Geometry

  /**
   * `getIntensityAtDistance`: 1 inside the core, 0 beyond the halo, falling linearly in
   * between. The middle case needs r < d <= 2r, so it never divides by zero.
   */
  function Intensity(r: real, d: real): (v: real)
    ensures 0.0 <= v <= 1.0
    ensures d <= r ==> v == 1.0
    ensures d > r && d > r * FOOD_HALO_MULTIPLIER ==> v == 0.0
  {
    if d <= r then 1.0
    else if d > r * FOOD_HALO_MULTIPLIER then 0.0
    else
      DivInUnit(d - r, r);
      1.0 - (d - r) / r
  }

  lemma DivInUnit(a: real, c: real)
    requires 0.0 <= a <= c && c > 0.0
    ensures 0.0 <= a / c <= 1.0
  {
    assert a / c * c == a;
  }

  /** Moving away from an item never raises its intensity. */
  lemma IntensityNonIncreasing(r: real, d1: real, d2: real)
    requires d1 <= d2
    ensures Intensity(r, d2) <= Intensity(r, d1)
  {
    if r < d1 <= r * FOOD_HALO_MULTIPLIER && d2 <= r * FOOD_HALO_MULTIPLIER {
      assert (d1 - r) / r <= (d2 - r) / r by {
        DivMonotone(d1 - r, d2 - r, r);
      }
    }
  }

  lemma DivMonotone(a: real, b: real, c: real)
    requires a <= b && c > 0.0
    ensures a / c <= b / c
  {
    assert b / c - a / c == (b - a) / c;
  }

  /** The intensity is positive exactly inside the open halo disc (for any radius). */
  lemma IntensityPositiveIff(r: real, d: real)
    ensures Intensity(r, d) > 0.0 <==> d <= r || d < r * FOOD_HALO_MULTIPLIER
  {
    if r < d < r * FOOD_HALO_MULTIPLIER {
      assert (d - r) / r < 1.0 by {
        assert d - r < r;
        DivBelowOne(d - r, r);
      }
    }
  }

  lemma DivBelowOne(a: real, c: real)
    requires a < c && c > 0.0
    ensures a / c < 1.0
  {
    assert a / c * c == a;
  }

  /** `depleted`, shared by food and poison: less than the depletion threshold remains. */
  predicate Depleted(remaining: real) {
    remaining < DECAY_DEPLETION_THRESHOLD
  }

  /** One cycle of `decay()`: exactly the decay amount, with no floor. */
  function Decayed(remaining: real): (after: real)
    ensures after < remaining
    ensures remaining - after == FOOD_POISON_DECAY_PER_CYCLE
  {
    remaining - FOOD_POISON_DECAY_PER_CYCLE
  }

  /** A food item's data; `pos` is in pixels. */
  datatype FoodValue = FoodValue(pos: Pos, radius: real, maxEnergy: real, remaining: real) {
    /** `maxEnergy` is the initial energy and only consumption and decay change `remaining`. */
    ghost predicate Valid() {
      remaining <= maxEnergy
    }
  }

  /** `getEnergyAtDistance`: the intensity scaled by the energy left. */
  function EnergyAtDistance(f: FoodValue, d: real): (e: real)
    ensures f.remaining >= 0.0 ==> 0.0 <= e <= f.remaining
    ensures d <= f.radius ==> e == f.remaining
    ensures d > f.radius && d > f.radius * FOOD_HALO_MULTIPLIER ==> e == 0.0
  {
    Intensity(f.radius, d) * f.remaining
  }

  /** `canFeedAt`: at least one unit of energy reaches distance `d`. */
  predicate CanFeedAt(f: FoodValue, d: real) {
    EnergyAtDistance(f, d) >= 1.0
  }

  /** Feeding needs at least one unit left and a distance inside the halo. */
  lemma CanFeedAtBounds(f: FoodValue, d: real)
    requires CanFeedAt(f, d)
    ensures f.remaining >= 1.0
    ensures d <= f.radius || d <= f.radius * FOOD_HALO_MULTIPLIER
  {
  }

  /** What `consumeEnergy` takes: nothing from an empty item, else one unit or the rest. */
  function Consumed(remaining: real): (c: real)
    ensures remaining <= 0.0 ==> c == 0.0
    ensures remaining > 0.0 ==> 0.0 < c <= 1.0 && c <= remaining && (c == 1.0 || c == remaining)
    ensures remaining > 0.0 ==> remaining - c >= 0.0
  {
    if remaining <= 0.0 then 0.0 else Min(1.0, remaining)
  }

  /** A food item as `FoodItem` holds it; the pixel position never changes. */
  class Food {
    const pos: Pos
    const radiusCm: real
    const maxEnergy: real
    var remainingEnergy: real

    /** A new item starts full: `maxEnergy` and `remainingEnergy` are both the given energy. */
    constructor(pos: Pos, radiusCm: real, energy: real)
      ensures State() == FoodValue(pos, radiusCm, energy, energy)
      ensures Valid()
    {
      this.pos := pos;
      this.radiusCm := radiusCm;
      this.maxEnergy := energy;
      this.remainingEnergy := energy;
    }

    function State(): FoodValue
      reads this
    {
      FoodValue(pos, radiusCm, maxEnergy, remainingEnergy)
    }

    ghost predicate Valid()
      reads this
    {
      State().Valid()
    }

    predicate IsDepleted()
      reads this
    {
      Depleted(remainingEnergy)
    }

    /** `consumeEnergy()`: the amount taken is `Consumed` of the energy before the call. */
    method ConsumeEnergy() returns (consumed: real)
      requires Valid()
      modifies this
      ensures consumed == Consumed(old(remainingEnergy))
      ensures remainingEnergy == old(remainingEnergy) - consumed
      ensures old(remainingEnergy) > 0.0 ==> remainingEnergy >= 0.0
      ensures Valid()
    {
      if remainingEnergy <= 0.0 {
        return 0.0;
      }
      consumed := Min(1.0, remainingEnergy);
      remainingEnergy := remainingEnergy - consumed;
    }

    /** `decay()`: one cycle of decay. */
    method Decay()
      requires Valid()
      modifies this
      ensures remainingEnergy == Decayed(old(remainingEnergy))
      ensures Valid()
    {
      remainingEnergy := remainingEnergy - FOOD_POISON_DECAY_PER_CYCLE;
    }
  }

  /** The data of every item of a food list, in order. */
  function FoodStates(fs: seq<Food>): (vs: seq<FoodValue>)
    reads fs
  {
    seq(|fs|, i reads fs requires 0 <= i < |fs| => fs[i].State())
  }

  /** A poison item's data; its energy only decides when it is depleted. */
  datatype PoisonValue = PoisonValue(pos: Pos, radius: real, remaining: real)

  /** `isInRange`: the poison's intensity, the same formula as food's, is positive. */
  predicate InRange(p: PoisonValue, d: real) {
    Intensity(p.radius, d) > 0.0
  }

  /** For a positive radius, a poison reaches exactly the distances below twice its radius. */
  lemma InRangeIff(p: PoisonValue, d: real)
    requires p.radius > 0.0
    ensures InRange(p, d) <==> d < p.radius * FOOD_HALO_MULTIPLIER
  {
    IntensityPositiveIff(p.radius, d);
  }

  /** The reach of a poison does not depend on how much of it is left. */
  lemma InRangeIgnoresEnergy(p: PoisonValue, e: real, d: real)
    ensures InRange(p, d) <==> InRange(p.(remaining := e), d)
  {
  }

  class Poison {
    const pos: Pos
    const radiusCm: real
    var remainingEnergy: real

    constructor(pos: Pos, radiusCm: real, energy: real)
      ensures State() == PoisonValue(pos, radiusCm, energy)
    {
      this.pos := pos;
      this.radiusCm := radiusCm;
      this.remainingEnergy := energy;
    }

    function State(): PoisonValue
      reads this
    {
      PoisonValue(pos, radiusCm, remainingEnergy)
    }

    predicate IsDepleted()
      reads this
    {
      Depleted(remainingEnergy)
    }

    /** `decay()`: one cycle of decay. */
    method Decay()
      modifies this
      ensures remainingEnergy == Decayed(old(remainingEnergy))
    {
      remainingEnergy := remainingEnergy - FOOD_POISON_DECAY_PER_CYCLE;
    }
  }

  function PoisonStates(ps: seq<Poison>): (vs: seq<PoisonValue>)
    reads ps
  {
    seq(|ps|, i reads ps requires 0 <= i < |ps| => ps[i].State())
  }
}

/**
 * The entity lists the scene and the cycle manager share (the scene hands its own arrays to the
 * cycle manager, so both see every push and splice), the id counters, the order-keeping
 * removal of entries and the formulas that place a randomly spawned food or poison item.
 */
module Worlds {
  import opened Constants
  import opened Geometry
  import opened Resources
  import opened Amoebas
  import opened Enemies
  import opened Counters
  import EnemyAI

  /** The values of everything in the world, in list order, and the next amoeba number. */
  datatype WorldValue = WorldValue(
    amoebas: seq<AmoebaValue>,
    enemies: seq<EnemyValue>,
    foods: seq<FoodValue>,
    poisons: seq<PoisonValue>,
    nextAmoeba: nat)

  /** The scene's `amoebas`, `enemies`, `foods` and `poisons` arrays and the two id counters. */
  class World {
    var amoebas: seq<Amoeba>
    var enemies: seq<Enemy>
    var foods: seq<Food>
    var poisons: seq<Poison>
    const amoebaIds: Counter
    const enemyIds: Counter

    /** No object appears twice in a list, and every food item keeps `remaining <= maxEnergy`. */
    ghost predicate Valid()
      reads this, foods
    {
      && EnemyAI.Distinct(amoebas) && EnemyAI.Distinct(enemies)
      && EnemyAI.Distinct(foods) && EnemyAI.Distinct(poisons)
      && forall f :: f in foods ==> f.Valid()
    }

    ghost function Snapshot(): WorldValue
      reads this, amoebas, enemies, foods, poisons, amoebaIds
    {
      WorldValue(AmoebaStates(amoebas), EnemyStates(enemies), FoodStates(foods), PoisonStates(poisons), amoebaIds.next)
    }

    constructor()
      ensures amoebas == [] && enemies == [] && foods == [] && poisons == []
      ensures fresh(amoebaIds) && fresh(enemyIds) && amoebaIds != enemyIds
      ensures amoebaIds.next == 0 && enemyIds.next == 0
      ensures Valid()
    {
      amoebas, enemies, foods, poisons := [], [], [], [];
      amoebaIds := new Counter();
      enemyIds := new Counter();
    }

    /** `amoebas.push(amoeba)` for an amoeba not yet in the world; nothing else changes. */
    method AddAmoeba(amoeba: Amoeba)
      requires Valid() && amoeba !in amoebas
      modifies this
      ensures Valid() && amoebas == old(amoebas) + [amoeba]
      ensures enemies == old(enemies) && foods == old(foods) && poisons == old(poisons)
      ensures AmoebaStates(amoebas) == old(AmoebaStates(amoebas)) + [amoeba.State()]
      ensures Snapshot() == old(Snapshot()).(amoebas := old(Snapshot()).amoebas + [amoeba.State()])
    {
      EnemyAI.DistinctSnoc(amoebas, amoeba);
      ghost var w := Snapshot();
      amoebas := amoebas + [amoeba];
      assert AmoebaStates(amoebas) == w.amoebas + [amoeba.State()];
      assert EnemyStates(enemies) == w.enemies && FoodStates(foods) == w.foods && PoisonStates(poisons) == w.poisons;
    }

    /** `enemies.push(enemy)` for an enemy not yet in the world; nothing else changes. */
    method AddEnemy(enemy: Enemy)
      requires Valid() && enemy !in enemies
      modifies this
      ensures Valid() && enemies == old(enemies) + [enemy]
      ensures amoebas == old(amoebas) && foods == old(foods) && poisons == old(poisons)
      ensures EnemyStates(enemies) == old(EnemyStates(enemies)) + [enemy.State()]
      ensures Snapshot() == old(Snapshot()).(enemies := old(Snapshot()).enemies + [enemy.State()])
    {
      EnemyAI.DistinctSnoc(enemies, enemy);
      ghost var w := Snapshot();
      enemies := enemies + [enemy];
      assert EnemyStates(enemies) == w.enemies + [enemy.State()];
      assert AmoebaStates(amoebas) == w.amoebas && FoodStates(foods) == w.foods && PoisonStates(poisons) == w.poisons;
    }

    /** `foods.push(food)` for a food item not yet in the world; nothing else changes. */
    method AddFood(food: Food)
      requires Valid() && food !in foods && food.Valid()
      modifies this
      ensures Valid() && foods == old(foods) + [food]
      ensures amoebas == old(amoebas) && enemies == old(enemies) && poisons == old(poisons)
      ensures FoodStates(foods) == old(FoodStates(foods)) + [food.State()]
      ensures Snapshot() == old(Snapshot()).(foods := old(Snapshot()).foods + [food.State()])
    {
      EnemyAI.DistinctSnoc(foods, food);
      ghost var w := Snapshot();
      foods := foods + [food];
      assert FoodStates(foods) == w.foods + [food.State()];
      assert AmoebaStates(amoebas) == w.amoebas && EnemyStates(enemies) == w.enemies && PoisonStates(poisons) == w.poisons;
    }

    /** `poisons.push(poison)` for a poison item not yet in the world; nothing else changes. */
    method AddPoison(poison: Poison)
      requires Valid() && poison !in poisons
      modifies this
      ensures Valid() && poisons == old(poisons) + [poison]
      ensures amoebas == old(amoebas) && enemies == old(enemies) && foods == old(foods)
      ensures PoisonStates(poisons) == old(PoisonStates(poisons)) + [poison.State()]
      ensures Snapshot() == old(Snapshot()).(poisons := old(Snapshot()).poisons + [poison.State()])
    {
      EnemyAI.DistinctSnoc(poisons, poison);
      ghost var w := Snapshot();
      poisons := poisons + [poison];
      assert PoisonStates(poisons) == w.poisons + [poison.State()];
      assert AmoebaStates(amoebas) == w.amoebas && EnemyStates(enemies) == w.enemies && FoodStates(foods) == w.foods;
    }

    /** The arrays truncated to length 0 (`length = 0` on each); the counters keep counting. */
    method Clear()
      modifies this
      ensures amoebas == [] && enemies == [] && foods == [] && poisons == []
      ensures Snapshot() == WorldValue([], [], [], [], amoebaIds.next) && Valid()
    {
      amoebas, enemies, foods, poisons := [], [], [], [];
    }
  }

  // ----- removal keeping order -----

  /** The entries of `xs` whose flag in `drop` is false, in their original order. */
  function Kept<T>(xs: seq<T>, drop: seq<bool>): (ys: seq<T>)
    requires |drop| == |xs|
    ensures |ys| <= |xs| && forall y :: y in ys ==> y in xs
  {
    if xs == [] then [] else (if drop[0] then [] else [xs[0]]) + Kept(xs[1..], drop[1..])
  }

  /** The positions whose flag is false, in increasing order. */
  function KeptIndices(drop: seq<bool>): (idx: seq<nat>)
    ensures forall k :: 0 <= k < |idx| ==> idx[k] < |drop| && !drop[idx[k]]
  {
    if drop == [] then []
    else
      var rest := KeptIndices(drop[1..]);
      (if drop[0] then [] else [0]) + seq(|rest|, k requires 0 <= k < |rest| => rest[k] + 1)
  }

  /** The positions come in increasing order. */
  lemma {:induction false} KeptIndicesIncreasing(drop: seq<bool>)
    ensures forall k, l :: 0 <= k < l < |KeptIndices(drop)| ==> KeptIndices(drop)[k] < KeptIndices(drop)[l]
  {
    if drop != [] {
      KeptIndicesIncreasing(drop[1..]);
      var rest := KeptIndices(drop[1..]);
      var head: seq<nat> := if drop[0] then [] else [0];
      var shifted := seq(|rest|, k requires 0 <= k < |rest| => rest[k] + 1);
      var idx := head + shifted;
      assert KeptIndices(drop) == idx;
      forall k, l | 0 <= k < l < |idx|
        ensures idx[k] < idx[l]
      {
        assert idx[l] == rest[l - |head|] + 1;
        if k < |head| {
          assert idx[k] == 0;
        } else {
          assert idx[k] == rest[k - |head|] + 1;
          assert rest[k - |head|] < rest[l - |head|];
        }
      }
    }
  }

  /** Every position whose flag is false is listed. */
  lemma {:induction false} KeptIndicesComplete(drop: seq<bool>, i: nat)
    requires i < |drop| && !drop[i]
    ensures i in KeptIndices(drop)
  {
    if i > 0 {
      var rest := KeptIndices(drop[1..]);
      KeptIndicesComplete(drop[1..], i - 1);
      var k :| 0 <= k < |rest| && rest[k] == i - 1;
      var shifted := seq(|rest|, k requires 0 <= k < |rest| => rest[k] + 1);
      assert shifted[k] == i;
      assert KeptIndices(drop) == (if drop[0] then [] else [0]) + shifted;
    }
  }

  /**
   * `Kept` is the stable filter: its `k`-th entry is the entry at the `k`-th position whose
   * flag is false.
   */
  lemma {:induction false} KeptSelects<T>(xs: seq<T>, drop: seq<bool>)
    requires |drop| == |xs|
    ensures |Kept(xs, drop)| == |KeptIndices(drop)|
    ensures forall k :: 0 <= k < |Kept(xs, drop)| ==> Kept(xs, drop)[k] == xs[KeptIndices(drop)[k]]
  {
    if xs != [] {
      KeptSelects(xs[1..], drop[1..]);
    }
  }

  /**
   * After the removal every entry left has a false flag, every entry with a false flag is
   * left, the survivors keep their relative order and no object is duplicated.
   */
  lemma KeptSpec<T>(xs: seq<T>, drop: seq<bool>)
    requires |drop| == |xs|
    ensures |Kept(xs, drop)| == |KeptIndices(drop)|
    ensures forall k :: 0 <= k < |Kept(xs, drop)| ==>
      var i := KeptIndices(drop)[k]; i < |xs| && !drop[i] && Kept(xs, drop)[k] == xs[i]
    ensures forall i :: 0 <= i < |xs| && !drop[i] ==> xs[i] in Kept(xs, drop)
    ensures EnemyAI.Distinct(xs) ==> EnemyAI.Distinct(Kept(xs, drop))
  {
    KeptSelects(xs, drop);
    var idx := KeptIndices(drop);
    forall i | 0 <= i < |xs| && !drop[i]
      ensures xs[i] in Kept(xs, drop)
    {
      KeptIndicesComplete(drop, i);
      var k :| 0 <= k < |idx| && idx[k] == i;
      assert Kept(xs, drop)[k] == xs[i];
    }
    if EnemyAI.Distinct(xs) {
      KeptIndicesIncreasing(drop);
      EnemyAI.DistinctIndices(xs);
      EnemyAI.DistinctIndices(Kept(xs, drop));
    }
  }

  /**
   * When `drop` flags exactly the entries failing `keep`, what `Kept` leaves is exactly the
   * entries satisfying `keep`.
   */
  lemma KeptExactly<T>(xs: seq<T>, drop: seq<bool>, keep: T -> bool)
    requires |drop| == |xs| && forall i :: 0 <= i < |xs| ==> drop[i] == !keep(xs[i])
    ensures forall y :: y in Kept(xs, drop) ==> keep(y)
    ensures forall y :: y in xs && keep(y) ==> y in Kept(xs, drop)
  {
    KeptSpec(xs, drop);
    var ys := Kept(xs, drop);
    forall y | y in ys
      ensures keep(y)
    {
      var k :| 0 <= k < |ys| && ys[k] == y;
      assert !drop[KeptIndices(drop)[k]];
    }
  }

  /** With no flag set, nothing is removed. */
  lemma {:induction false} KeptNone<T>(xs: seq<T>, drop: seq<bool>)
    requires |drop| == |xs| && forall i :: 0 <= i < |drop| ==> !drop[i]
    ensures Kept(xs, drop) == xs
  {
    if xs != [] {
      KeptNone(xs[1..], drop[1..]);
    }
  }

  /** The backward `splice(i, 1)` loop of `removeDeadEntities`, on one list. */
  method SpliceOut<T>(xs: seq<T>, drop: seq<bool>) returns (ys: seq<T>)
    requires |drop| == |xs|
    ensures ys == Kept(xs, drop)
  {
    ys := xs;
    var i := |xs|;
    while i > 0
      invariant 0 <= i <= |xs|
      invariant ys == xs[..i] + Kept(xs[i..], drop[i..])
    {
      i := i - 1;
      assert xs[i..][1..] == xs[i + 1..] && drop[i..][1..] == drop[i + 1..];
      assert xs[..i + 1] == xs[..i] + [xs[i]];
      if drop[i] {
        ys := ys[..i] + ys[i + 1..];
      }
    }
  }

  /** The flags of the amoebas that are dead. */
  function DeadAmoebas(xs: seq<AmoebaValue>): (d: seq<bool>)
  {
    seq(|xs|, i requires 0 <= i < |xs| => !xs[i].alive)
  }

  function DeadEnemies(xs: seq<EnemyValue>): (d: seq<bool>)
  {
    seq(|xs|, i requires 0 <= i < |xs| => !xs[i].alive)
  }

  function DepletedFoods(xs: seq<FoodValue>): (d: seq<bool>)
  {
    seq(|xs|, i requires 0 <= i < |xs| => Depleted(xs[i].remaining))
  }

  function DepletedPoisons(xs: seq<PoisonValue>): (d: seq<bool>)
  {
    seq(|xs|, i requires 0 <= i < |xs| => Depleted(xs[i].remaining))
  }

  // ----- spawning -----

  /** The four random numbers one spawned item uses: x, y, radius and energy, in this order. */
  datatype SpawnDraws = SpawnDraws(x: real, y: real, radius: real, energy: real) {
    predicate InUnit() {
      0.0 <= x < 1.0 && 0.0 <= y < 1.0 && 0.0 <= radius < 1.0 && 0.0 <= energy < 1.0
    }
  }

  /** The pixel position of a spawn: both coordinates drawn over the world in centimetres. */
  function SpawnPos(d: SpawnDraws): Pos {
    Pos(CmToPx(d.x * WORLD_WIDTH_CM), CmToPx(d.y * WORLD_HEIGHT_CM))
  }

  /** `MIN + floor(draw * (MAX - MIN))`, the integer energy of a spawned item. */
  function SpawnEnergy(draw: real, min: int, max: int): int {
    min + (draw * (max - min) as real).Floor
  }

  /** A food item the way `spawnInitialEntities` and `spawnRandomFood` place it, full. */
  function SpawnedFood(d: SpawnDraws): FoodValue {
    var e := SpawnEnergy(d.energy, FOOD_MIN_ENERGY, FOOD_MAX_ENERGY) as real;
    FoodValue(SpawnPos(d), MIN_FOOD_RADIUS_CM + d.radius * (MAX_FOOD_RADIUS_CM - MIN_FOOD_RADIUS_CM), e, e)
  }

  function SpawnedPoison(d: SpawnDraws): PoisonValue {
    PoisonValue(SpawnPos(d), MIN_POISON_RADIUS_CM + d.radius * (MAX_POISON_RADIUS_CM - MIN_POISON_RADIUS_CM),
      SpawnEnergy(d.energy, POISON_MIN_ENERGY, POISON_MAX_ENERGY) as real)
  }

  /** The food item `spawnRandomFood` and `spawnInitialEntities` construct from four draws. */
  method PlaceFood(d: SpawnDraws) returns (food: Food)
    ensures fresh(food) && food.State() == SpawnedFood(d) && food.Valid()
  {
    var x := d.x * WORLD_WIDTH_CM;
    var y := d.y * WORLD_HEIGHT_CM;
    var radius := MIN_FOOD_RADIUS_CM + d.radius * (MAX_FOOD_RADIUS_CM - MIN_FOOD_RADIUS_CM);
    var energy := FOOD_MIN_ENERGY + (d.energy * (FOOD_MAX_ENERGY - FOOD_MIN_ENERGY) as real).Floor;
    food := new Food(Pos(CmToPx(x), CmToPx(y)), radius, energy as real);
  }

  /** The poison item `spawnRandomPoison` and `spawnInitialEntities` construct from four draws. */
  method PlacePoison(d: SpawnDraws) returns (poison: Poison)
    ensures fresh(poison) && poison.State() == SpawnedPoison(d)
  {
    var x := d.x * WORLD_WIDTH_CM;
    var y := d.y * WORLD_HEIGHT_CM;
    var radius := MIN_POISON_RADIUS_CM + d.radius * (MAX_POISON_RADIUS_CM - MIN_POISON_RADIUS_CM);
    var energy := POISON_MIN_ENERGY + (d.energy * (POISON_MAX_ENERGY - POISON_MIN_ENERGY) as real).Floor;
    poison := new Poison(Pos(CmToPx(x), CmToPx(y)), radius, energy as real);
  }

  /** A draw in `[0, 1)` gives an integer energy in `[MIN, MAX - 1]`. */
  lemma SpawnEnergyBounds(draw: real, min: int, max: int)
    requires 0.0 <= draw < 1.0 && min < max
    ensures min <= SpawnEnergy(draw, min, max) <= max - 1
  {
    var scaled := draw * (max - min) as real;
    assert scaled < (max - min) as real;
    assert scaled.Floor <= max - min - 1;
  }

  /**
   * For draws in `[0, 1)` a spawned item lies in the world, its radius in `[0.005, 0.1)`, its
   * energy is an integer in `[2, 199]`, and a spawned food item starts full and not depleted.
   */
  lemma SpawnedBounds(d: SpawnDraws)
    requires d.InUnit()
    ensures InWorld(SpawnPos(d))
    ensures var f := SpawnedFood(d);
      && MIN_FOOD_RADIUS_CM <= f.radius < MAX_FOOD_RADIUS_CM
      && 2.0 <= f.maxEnergy <= 199.0 && f.maxEnergy == f.maxEnergy.Floor as real
      && f.remaining == f.maxEnergy && f.Valid() && !Depleted(f.remaining)
    ensures var p := SpawnedPoison(d);
      && MIN_POISON_RADIUS_CM <= p.radius < MAX_POISON_RADIUS_CM
      && 2.0 <= p.remaining <= 199.0 && !Depleted(p.remaining)
  {
    SpawnEnergyBounds(d.energy, FOOD_MIN_ENERGY, FOOD_MAX_ENERGY);
    SpawnEnergyBounds(d.energy, POISON_MIN_ENERGY, POISON_MAX_ENERGY);
  }
}

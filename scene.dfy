/**
 * The game scene: the seeded generation of the starting world (one amoeba at the centre, then
 * food, poison and enemies drawn from the generator), the start, pause and reset buttons and
 * the scene's own statistics update.
 */
module Scenes {
  import opened Wrappers
  import opened Constants
  import opened Geometry
  import opened Types
  import opened Resources
  import opened Amoebas
  import opened Enemies
  import opened Worlds
  import opened Phases
  import opened Rng
  import Store
  import Cycles

  // ----- the starting world, as values -----

  /** The pixel position of the world centre, where the first amoeba is placed. */
  function Centre(): (p: Pos)
    ensures InWorld(p)
  {
    Pos(CmToPx(WORLD_WIDTH_CM / 2.0), CmToPx(WORLD_HEIGHT_CM / 2.0))
  }

  /** The amoeba placed at the centre with the given number and the default energy. */
  function CentreAmoeba(n: nat): AmoebaValue {
    AmoebaValue(AmoebaId(n), Centre(), STARTING_ENERGY, true, false, None)
  }

  /** The four `rng()` results one food or poison placement reads, the generator being at `state`. */
  function FourDraws(draw: int -> real, state: int): (d: SpawnDraws)
    ensures InUnitInterval(draw) ==> d.InUnit()
  {
    SpawnDraws(draw(state + 1), draw(state + 2), draw(state + 3), draw(state + 4))
  }

  /** The first `n` food items of the food loop, the generator being at `state` when it starts. */
  function InitialFoods(draw: int -> real, state: int, n: nat): (fs: seq<FoodValue>)
    ensures |fs| == n
  {
    if n == 0 then [] else InitialFoods(draw, state, n - 1) + [SpawnedFood(FourDraws(draw, state + 4 * (n - 1)))]
  }

  /** The first `n` poison items of the poison loop, the generator being at `state` when it starts. */
  function InitialPoisons(draw: int -> real, state: int, n: nat): (ps: seq<PoisonValue>)
    ensures |ps| == n
  {
    if n == 0 then [] else InitialPoisons(draw, state, n - 1) + [SpawnedPoison(FourDraws(draw, state + 4 * (n - 1)))]
  }

  /** One more turn of the food loop appends the item placed from the next four draws. */
  lemma InitialFoodsSnoc(draw: int -> real, state: int, n: nat, d: SpawnDraws, front: seq<FoodValue>)
    requires d == FourDraws(draw, state + 4 * n)
    ensures front + InitialFoods(draw, state, n + 1) == (front + InitialFoods(draw, state, n)) + [SpawnedFood(d)]
  {
    AppendAssociative(front, InitialFoods(draw, state, n), [SpawnedFood(d)]);
  }

  /** One more turn of the poison loop appends the item placed from the next four draws. */
  lemma InitialPoisonsSnoc(draw: int -> real, state: int, n: nat, d: SpawnDraws, front: seq<PoisonValue>)
    requires d == FourDraws(draw, state + 4 * n)
    ensures front + InitialPoisons(draw, state, n + 1) == (front + InitialPoisons(draw, state, n)) + [SpawnedPoison(d)]
  {
    AppendAssociative(front, InitialPoisons(draw, state, n), [SpawnedPoison(d)]);
  }

  /**
   * The do-while condition of the enemy placement: the point (in centimetres) lies closer to the
   * centre than `MIN_ENEMY_SPAWN_DISTANCE_CM`. Both sides of the source's `Math.sqrt(d) < min`
   * are non-negative, so the squares are compared instead.
   */
  predicate NearCentre(x: real, y: real) {
    var dx, dy := x - WORLD_WIDTH_CM / 2.0, y - WORLD_HEIGHT_CM / 2.0;
    dx * dx + dy * dy < MIN_ENEMY_SPAWN_DISTANCE_CM * MIN_ENEMY_SPAWN_DISTANCE_CM
  }

  /**
   * One enemy's do-while: pairs of draws are taken until one lands away from the centre. The
   * result is that point in centimetres and the generator state after it, or `None` when
   * `tries` pairs all landed near the centre.
   */
  function EnemySpot(draw: int -> real, state: int, tries: nat): Option<(real, real, int)>
    decreases tries
  {
    if tries == 0 then None
    else
      var x := draw(state + 1) * WORLD_WIDTH_CM;
      var y := draw(state + 2) * WORLD_HEIGHT_CM;
      if !NearCentre(x, y) then Some((x, y, state + 2)) else EnemySpot(draw, state + 2, tries - 1)
  }

  /** The enemy the placement loop constructs with number `n` at a point given in centimetres. */
  function PlacedEnemyValue(n: nat, x: real, y: real): EnemyValue {
    EnemyValue(EnemyId(n), Pos(CmToPx(x), CmToPx(y)), STARTING_ENERGY, true, None, false)
  }

  /**
   * The first `n` enemies of the enemy loop, numbered from `nextId`, and the generator state
   * after them; `None` when some enemy's do-while runs out of tries.
   */
  function InitialEnemies(draw: int -> real, state: int, nextId: nat, n: nat, tries: nat): Option<(seq<EnemyValue>, int)>
    decreases n
  {
    if n == 0 then Some(([], state))
    else
      match InitialEnemies(draw, state, nextId, n - 1, tries)
      case None => None
      case Some((es, st)) =>
        match EnemySpot(draw, st, tries)
        case None => None
        case Some((x, y, st')) => Some((es + [PlacedEnemyValue(nextId + n - 1, x, y)], st'))
  }

  /** Once one enemy's do-while runs out of tries, the enemy loop as a whole does. */
  lemma {:induction false} InitialEnemiesStuck(draw: int -> real, state: int, nextId: nat, m: nat, n: nat, tries: nat)
    requires m <= n && InitialEnemies(draw, state, nextId, m, tries).None?
    ensures InitialEnemies(draw, state, nextId, n, tries).None?
    decreases n - m
  {
    if m < n {
      InitialEnemiesStuck(draw, state, nextId, m + 1, n, tries);
    }
  }

  /** One more turn of the enemy loop: the next do-while either places the next enemy or runs out of tries. */
  lemma InitialEnemiesStep(draw: int -> real, state: int, nextId: nat, n: nat, tries: nat, es: seq<EnemyValue>, st: int)
    requires InitialEnemies(draw, state, nextId, n, tries) == Some((es, st))
    ensures var spot := EnemySpot(draw, st, tries);
      InitialEnemies(draw, state, nextId, n + 1, tries) ==
        if spot.None? then None
        else Some((es + [PlacedEnemyValue(nextId + n, spot.value.0, spot.value.1)], spot.value.2))
  {
  }

  /** Concatenation is associative. */
  lemma AppendAssociative<T>(a: seq<T>, b: seq<T>, c: seq<T>)
    ensures (a + b) + c == a + (b + c)
  {
  }

  /** The world after generation, the next enemy number and the generator state. */
  datatype Spawn = Spawn(world: WorldValue, nextEnemy: nat, state: int)

  /**
   * `spawnInitialEntities` on values: from the current world, the enemy counter and the state
   * the generator was seeded to, the centre amoeba, `INITIAL_FOOD_COUNT` food items,
   * `INITIAL_POISON_COUNT` poison items and `INITIAL_ENEMY_COUNT` enemies, drawn in that order.
   */
  function InitialEntities(draw: int -> real, w: WorldValue, nextEnemy: nat, seeded: int, tries: nat): Option<Spawn> {
    match InitialEnemies(draw, seeded + 4 * (INITIAL_FOOD_COUNT + INITIAL_POISON_COUNT), nextEnemy, INITIAL_ENEMY_COUNT, tries)
    case None => None
    case Some((es, st)) =>
      var stocked := StockedWorld(draw, w, seeded);
      Some(Spawn(stocked.(enemies := stocked.enemies + es), nextEnemy + INITIAL_ENEMY_COUNT, st))
  }

  /** The world after the first three stages of generation: the centre amoeba, then the food, then the poison. */
  function StockedWorld(draw: int -> real, w: WorldValue, seeded: int): WorldValue {
    WorldValue(w.amoebas + [CentreAmoeba(w.nextAmoeba)], w.enemies,
               w.foods + InitialFoods(draw, seeded, INITIAL_FOOD_COUNT),
               w.poisons + InitialPoisons(draw, seeded + 4 * INITIAL_FOOD_COUNT, INITIAL_POISON_COUNT),
               w.nextAmoeba + 1)
  }

  /** A food item as generation places it: inside the world, a radius and a whole energy in range, full. */
  ghost predicate PlacedFood(f: FoodValue) {
    && InWorld(f.pos)
    && MIN_FOOD_RADIUS_CM <= f.radius < MAX_FOOD_RADIUS_CM
    && 2.0 <= f.maxEnergy <= 199.0 && f.maxEnergy == f.maxEnergy.Floor as real
    && f.remaining == f.maxEnergy && !Depleted(f.remaining)
  }

  /** A poison item as generation places it: inside the world, a radius and a whole energy in range. */
  ghost predicate PlacedPoison(p: PoisonValue) {
    && InWorld(p.pos)
    && MIN_POISON_RADIUS_CM <= p.radius < MAX_POISON_RADIUS_CM
    && 2.0 <= p.remaining <= 199.0 && p.remaining == p.remaining.Floor as real
  }

  /** An enemy as generation places it: the given id, alive, idle, inside the world and away from the centre. */
  ghost predicate PlacedEnemy(e: EnemyValue, id: string) {
    && e.id == id && e.alive && e.energy == STARTING_ENERGY && e.tween.None? && !e.feeding
    && InWorld(e.pos)
    && !NearCentre(PxToCm(e.pos.x), PxToCm(e.pos.y))
  }


  /**
   * Food item `k` is built from draws `4k` to `4k + 3` of the generator's stream, in the order
   * x, y, radius, energy.
   */
  lemma {:induction false} InitialFoodsFromStream(draw: int -> real, state: int, n: nat, k: nat)
    requires k < n
    ensures var ds := Draws(draw, state, 4 * n);
      InitialFoods(draw, state, n)[k] == SpawnedFood(SpawnDraws(ds[4 * k], ds[4 * k + 1], ds[4 * k + 2], ds[4 * k + 3]))
    decreases n
  {
    if k < n - 1 {
      InitialFoodsFromStream(draw, state, n - 1, k);
      FourFromStream(draw, state, n - 1, k);
    }
    FourFromStream(draw, state, n, k);
  }

  /** Poison item `k` is built from draws `4k` to `4k + 3` of the generator's stream. */
  lemma {:induction false} InitialPoisonsFromStream(draw: int -> real, state: int, n: nat, k: nat)
    requires k < n
    ensures var ds := Draws(draw, state, 4 * n);
      InitialPoisons(draw, state, n)[k] == SpawnedPoison(SpawnDraws(ds[4 * k], ds[4 * k + 1], ds[4 * k + 2], ds[4 * k + 3]))
    decreases n
  {
    if k < n - 1 {
      InitialPoisonsFromStream(draw, state, n - 1, k);
      FourFromStream(draw, state, n - 1, k);
    }
    FourFromStream(draw, state, n, k);
  }

  /** The four draws of placement `k` are entries `4k` to `4k + 3` of the stream. */
  lemma FourFromStream(draw: int -> real, state: int, n: nat, k: nat)
    requires k < n
    ensures var ds := Draws(draw, state, 4 * n);
      FourDraws(draw, state + 4 * k) == SpawnDraws(ds[4 * k], ds[4 * k + 1], ds[4 * k + 2], ds[4 * k + 3])
  {
    DrawsAt(draw, state, 4 * n, 4 * k);
    DrawsAt(draw, state, 4 * n, 4 * k + 1);
    DrawsAt(draw, state, 4 * n, 4 * k + 2);
    DrawsAt(draw, state, 4 * n, 4 * k + 3);
  }

  /** With draws in [0, 1), every generated food item is placed inside the world with radius and energy in range. */
  lemma {:induction false} InitialFoodsPlaced(draw: int -> real, state: int, n: nat)
    requires InUnitInterval(draw)
    ensures forall k :: 0 <= k < n ==> PlacedFood(InitialFoods(draw, state, n)[k])
    decreases n
  {
    if n > 0 {
      InitialFoodsPlaced(draw, state, n - 1);
      SpawnedBounds(FourDraws(draw, state + 4 * (n - 1)));
    }
  }

  /** With draws in [0, 1), every generated poison item is placed inside the world with radius and energy in range. */
  lemma {:induction false} InitialPoisonsPlaced(draw: int -> real, state: int, n: nat)
    requires InUnitInterval(draw)
    ensures forall k :: 0 <= k < n ==> PlacedPoison(InitialPoisons(draw, state, n)[k])
    decreases n
  {
    if n > 0 {
      InitialPoisonsPlaced(draw, state, n - 1);
      SpawnedBounds(FourDraws(draw, state + 4 * (n - 1)));
    }
  }

  /**
   * A do-while that ends has taken at least one pair of draws and lands inside the world, away
   * from the centre.
   */
  lemma {:induction false} EnemySpotSpec(draw: int -> real, state: int, tries: nat)
    requires InUnitInterval(draw)
    ensures var r := EnemySpot(draw, state, tries);
      r.Some? ==>
        && !NearCentre(r.value.0, r.value.1)
        && 0.0 <= r.value.0 < WORLD_WIDTH_CM && 0.0 <= r.value.1 < WORLD_HEIGHT_CM
        && state + 2 <= r.value.2 <= state + 2 * tries
    decreases tries
  {
    if tries > 0 {
      EnemySpotSpec(draw, state + 2, tries - 1);
    }
  }

  /** With draws in [0, 1), every generated enemy is numbered in order, alive and idle, inside the world and away from the centre. */
  lemma {:induction false} InitialEnemiesPlaced(draw: int -> real, state: int, nextId: nat, n: nat, tries: nat)
    requires InUnitInterval(draw)
    ensures var r := InitialEnemies(draw, state, nextId, n, tries);
      r.Some? ==> |r.value.0| == n && forall k :: 0 <= k < n ==> PlacedEnemy(r.value.0[k], EnemyId(nextId + k))
    decreases n
  {
    if n > 0 {
      InitialEnemiesPlaced(draw, state, nextId, n - 1, tries);
      var prev := InitialEnemies(draw, state, nextId, n - 1, tries);
      if prev.Some? {
        var es := prev.value.0;
        var spot := EnemySpot(draw, prev.value.1, tries);
        EnemySpotSpec(draw, prev.value.1, tries);
        if spot.Some? {
          var e := PlacedEnemyValue(nextId + n - 1, spot.value.0, spot.value.1);
          PlacedEnemyValuePlaced(nextId + n - 1, spot.value.0, spot.value.1);
          assert InitialEnemies(draw, state, nextId, n, tries) == Some((es + [e], spot.value.2));
          forall k | 0 <= k < n
            ensures PlacedEnemy((es + [e])[k], EnemyId(nextId + k))
          {
            if k < n - 1 {
              assert (es + [e])[k] == es[k];
            }
          }
        }
      }
    }
  }

  /** An enemy built at an accepted spot is placed as generation promises. */
  lemma PlacedEnemyValuePlaced(n: nat, x: real, y: real)
    requires !NearCentre(x, y) && 0.0 <= x < WORLD_WIDTH_CM && 0.0 <= y < WORLD_HEIGHT_CM
    ensures PlacedEnemy(PlacedEnemyValue(n, x, y), EnemyId(n))
  {
    var e := PlacedEnemyValue(n, x, y);
    assert PxToCm(e.pos.x) == x && PxToCm(e.pos.y) == y;
  }

  /**
   * Generation appends exactly one amoeba, at the centre with a fresh number, then
   * `INITIAL_FOOD_COUNT` food items, `INITIAL_POISON_COUNT` poison items and
   * `INITIAL_ENEMY_COUNT` enemies, each placed as the predicates above say; what was already in
   * the world stays in front.
   */
  lemma InitialEntitiesSpec(draw: int -> real, w: WorldValue, nextEnemy: nat, seeded: int, tries: nat)
    requires InUnitInterval(draw) && InitialEntities(draw, w, nextEnemy, seeded, tries).Some?
    ensures var sp := InitialEntities(draw, w, nextEnemy, seeded, tries).value; var v := sp.world;
      && v.amoebas == w.amoebas + [CentreAmoeba(w.nextAmoeba)] && v.nextAmoeba == w.nextAmoeba + 1
      && |v.foods| == |w.foods| + INITIAL_FOOD_COUNT && v.foods[..|w.foods|] == w.foods
      && (forall k :: |w.foods| <= k < |v.foods| ==> PlacedFood(v.foods[k]))
      && |v.poisons| == |w.poisons| + INITIAL_POISON_COUNT && v.poisons[..|w.poisons|] == w.poisons
      && (forall k :: |w.poisons| <= k < |v.poisons| ==> PlacedPoison(v.poisons[k]))
      && |v.enemies| == |w.enemies| + INITIAL_ENEMY_COUNT && v.enemies[..|w.enemies|] == w.enemies
      && (forall k :: |w.enemies| <= k < |v.enemies| ==> PlacedEnemy(v.enemies[k], EnemyId(nextEnemy + (k - |w.enemies|))))
      && sp.nextEnemy == nextEnemy + INITIAL_ENEMY_COUNT
  {
    var poisonStart := seeded + 4 * INITIAL_FOOD_COUNT;
    InitialFoodsPlaced(draw, seeded, INITIAL_FOOD_COUNT);
    InitialPoisonsPlaced(draw, poisonStart, INITIAL_POISON_COUNT);
    InitialEnemiesPlaced(draw, poisonStart + 4 * INITIAL_POISON_COUNT, nextEnemy, INITIAL_ENEMY_COUNT, tries);
  }

  // ----- the scene's statistics -----

  /**
   * `updateStats` of the scene: the counts of living amoebas and enemies, of food items not
   * depleted and of all poison items, the list of living amoebas, and the first living amoeba's
   * energy when there is one.
   */
  function SceneStats(s: GameStats, w: WorldValue): GameStats {
    var alive := Kept(w.amoebas, DeadAmoebas(w.amoebas));
    s.(amoebaCount := |alive|,
       foodCount := |Kept(w.foods, DepletedFoods(w.foods))|,
       enemyCount := |Kept(w.enemies, DeadEnemies(w.enemies))|,
       poisonCount := |w.poisons|,
       amoebas := seq(|alive|, i requires 0 <= i < |alive| => AmoebaInfo(alive[i].id, alive[i].energy)),
       selectedAmoebaEnergy := if |alive| > 0 then alive[0].energy else s.selectedAmoebaEnergy)
  }

  /** The first kept entry is the entry at the first position not dropped. */
  lemma {:induction false} KeptFirst<T>(xs: seq<T>, drop: seq<bool>, i: nat)
    requires |drop| == |xs| && i < |xs| && !drop[i] && forall j :: 0 <= j < i ==> drop[j]
    ensures |Kept(xs, drop)| > 0 && Kept(xs, drop)[0] == xs[i]
    decreases i
  {
    if i > 0 {
      KeptFirst(xs[1..], drop[1..], i - 1);
    }
  }

  /**
   * The scene counts exactly as the cycle manager does, whatever amoeba is selected; it lists
   * every living amoeba and nothing else; it shows the first living amoeba's energy, and keeps
   * the old energy when none lives; nothing else changes.
   */
  lemma SceneStatsSpec(s: GameStats, w: WorldValue, selected: Option<string>)
    ensures var r := SceneStats(s, w); var c := CycleStats(s, w, selected);
      && r.amoebaCount == c.amoebaCount && r.foodCount == c.foodCount
      && r.enemyCount == c.enemyCount && r.poisonCount == c.poisonCount
      && |r.amoebas| == r.amoebaCount
      && (forall a :: a in w.amoebas && a.alive ==> AmoebaInfo(a.id, a.energy) in r.amoebas)
      && (forall info :: info in r.amoebas ==> exists a :: a in w.amoebas && a.alive && info == AmoebaInfo(a.id, a.energy))
      && (forall i :: 0 <= i < |w.amoebas| && w.amoebas[i].alive && (forall j :: 0 <= j < i ==> !w.amoebas[j].alive) ==>
            r.selectedAmoebaEnergy == w.amoebas[i].energy)
      && ((forall a :: a in w.amoebas ==> !a.alive) ==> r.selectedAmoebaEnergy == s.selectedAmoebaEnergy)
      && r == s.(amoebaCount := r.amoebaCount, foodCount := r.foodCount, enemyCount := r.enemyCount,
                 poisonCount := r.poisonCount, amoebas := r.amoebas, selectedAmoebaEnergy := r.selectedAmoebaEnergy)
  {
    var drop := DeadAmoebas(w.amoebas);
    var alive := Kept(w.amoebas, drop);
    var r := SceneStats(s, w);
    KeptExactly(w.amoebas, drop, (a: AmoebaValue) => a.alive);
    forall a | a in w.amoebas && a.alive
      ensures AmoebaInfo(a.id, a.energy) in r.amoebas
    {
      var k :| 0 <= k < |alive| && alive[k] == a;
      assert r.amoebas[k] == AmoebaInfo(a.id, a.energy);
    }
    forall info | info in r.amoebas
      ensures exists a :: a in w.amoebas && a.alive && info == AmoebaInfo(a.id, a.energy)
    {
      var k :| 0 <= k < |r.amoebas| && r.amoebas[k] == info;
      assert alive[k] in alive;
    }
    forall i | 0 <= i < |w.amoebas| && w.amoebas[i].alive && (forall j :: 0 <= j < i ==> !w.amoebas[j].alive)
      ensures r.selectedAmoebaEnergy == w.amoebas[i].energy
    {
      KeptFirst(w.amoebas, drop, i);
    }
    if |alive| > 0 {
      assert alive[0] in alive;
    }
  }

  /** `resetGame`'s own changes to the statistics before the world is generated again. */
  function ResetCounters(s: GameStats): GameStats {
    s.(running := false, cycleCount := 0, promptTokens := 0, generatedTokens := 0)
  }

  /** The world `resetGame` empties before generating again: the amoeba numbering keeps counting. */
  function EmptyWorld(nextAmoeba: nat): WorldValue {
    WorldValue([], [], [], [], nextAmoeba)
  }

  /**
   * After a reset the statistics show one amoeba with the starting energy, every generated
   * food item, enemy and poison item, a stopped game at cycle 0 and no tokens.
   */
  lemma ResetStatsSpec(draw: int -> real, s: GameStats, nextAmoeba: nat, nextEnemy: nat, seeded: int, tries: nat)
    requires InUnitInterval(draw) && InitialEntities(draw, EmptyWorld(nextAmoeba), nextEnemy, seeded, tries).Some?
    ensures var v := InitialEntities(draw, EmptyWorld(nextAmoeba), nextEnemy, seeded, tries).value.world;
      SceneStats(ResetCounters(s), v) == s.(
        running := false, cycleCount := 0, promptTokens := 0, generatedTokens := 0,
        amoebaCount := 1, foodCount := INITIAL_FOOD_COUNT, enemyCount := INITIAL_ENEMY_COUNT,
        poisonCount := INITIAL_POISON_COUNT, amoebas := [AmoebaInfo(AmoebaId(nextAmoeba), STARTING_ENERGY)],
        selectedAmoebaEnergy := STARTING_ENERGY)
  {
    var w := EmptyWorld(nextAmoeba);
    var v := InitialEntities(draw, w, nextEnemy, seeded, tries).value.world;
    InitialEntitiesSpec(draw, w, nextEnemy, seeded, tries);
    assert v.amoebas == [CentreAmoeba(nextAmoeba)];
    CountsAfterRemoval(v);
    KeptNone(v.amoebas, DeadAmoebas(v.amoebas));
  }

  // ----- the scene -----

  class GameScene {
    const world: World
    const store: Store.GameStore
    /** The module-level generator of `rng.ts` that generation draws from. */
    const gen: Generator
    const manager: Cycles.CycleManager

    /**
     * The scene, the cycle manager and the store share one world, the two counters are
     * distinct, and the generator's draws lie in [0, 1).
     */
    ghost predicate Valid()
      reads this, world, world.foods, store
    {
      && world.Valid() && store.Valid() && world.amoebaIds != world.enemyIds
      && manager.world == world && manager.store == store && gen.Valid()
    }

    /** The scene's fields before `create()`: empty arrays, a `mulberry32` generator and a cycle manager over them. */
    constructor(store: Store.GameStore)
      requires store.Valid()
      ensures this.store == store && fresh(world) && fresh(gen) && fresh(manager)
      ensures world.Snapshot() == EmptyWorld(0) && world.enemyIds.next == 0
      ensures gen.draw == Mulberry32
      ensures !manager.cycling && manager.cycleTimer.None?
      ensures Valid()
    {
      this.store := store;
      var w := new World();
      world := w;
      gen := new Generator();
      manager := new Cycles.CycleManager(w, store);
    }

    /** The four `rng()` calls of one food or poison placement, in the order x, y, radius, energy. */
    method DrawFour() returns (d: SpawnDraws)
      requires gen.Valid()
      modifies gen
      ensures d == FourDraws(gen.draw, old(gen.state)) && gen.state == old(gen.state) + 4
    {
      var x := gen.Next();
      var y := gen.Next();
      var radius := gen.Next();
      var energy := gen.Next();
      d := SpawnDraws(x, y, radius, energy);
    }

    /** The amoeba placed at the centre, appended and numbered by the amoeba counter. */
    method SpawnCentreAmoeba()
      requires world.Valid()
      modifies world, world.amoebaIds
      ensures world.Valid()
      ensures world.Snapshot() == old(world.Snapshot()).(
        amoebas := old(world.Snapshot()).amoebas + [CentreAmoeba(old(world.amoebaIds.next))],
        nextAmoeba := old(world.amoebaIds.next) + 1)
    {
      var amoeba := new Amoeba(world.amoebaIds, Pos(CmToPx(WORLD_WIDTH_CM / 2.0), CmToPx(WORLD_HEIGHT_CM / 2.0)), None);
      world.AddAmoeba(amoeba);
    }

    /** Turn `i` of the food loop: the next four draws place a full food item, appended after the first `i`. */
    method SpawnOneFood(ghost s0: int, ghost i: nat, ghost front: seq<FoodValue>)
      requires world.Valid() && gen.Valid() && gen.state == s0 + 4 * i
      requires FoodStates(world.foods) == front + InitialFoods(gen.draw, s0, i)
      modifies gen, world
      ensures world.Valid() && gen.state == s0 + 4 * (i + 1)
      ensures world.amoebas == old(world.amoebas) && world.enemies == old(world.enemies) && world.poisons == old(world.poisons)
      ensures FoodStates(world.foods) == front + InitialFoods(gen.draw, s0, i + 1)
    {
      var d := DrawFour();
      var food := PlaceFood(d);
      world.AddFood(food);
      InitialFoodsSnoc(gen.draw, s0, i, d, front);
    }

    /** Turn `i` of the poison loop: the next four draws place a poison item, appended after the first `i`. */
    method SpawnOnePoison(ghost s0: int, ghost i: nat, ghost front: seq<PoisonValue>)
      requires world.Valid() && gen.Valid() && gen.state == s0 + 4 * i
      requires PoisonStates(world.poisons) == front + InitialPoisons(gen.draw, s0, i)
      modifies gen, world
      ensures world.Valid() && gen.state == s0 + 4 * (i + 1)
      ensures world.amoebas == old(world.amoebas) && world.enemies == old(world.enemies) && world.foods == old(world.foods)
      ensures PoisonStates(world.poisons) == front + InitialPoisons(gen.draw, s0, i + 1)
    {
      var d := DrawFour();
      var poison := PlacePoison(d);
      world.AddPoison(poison);
      InitialPoisonsSnoc(gen.draw, s0, i, d, front);
    }

    /** The food loop: `n` items, each from four draws, appended in order. */
    method SpawnFoods(n: nat)
      requires world.Valid() && gen.Valid()
      modifies gen, world
      ensures world.Valid() && gen.state == old(gen.state) + 4 * n
      ensures world.amoebas == old(world.amoebas) && world.enemies == old(world.enemies) && world.poisons == old(world.poisons)
      ensures FoodStates(world.foods) == old(FoodStates(world.foods)) + InitialFoods(gen.draw, old(gen.state), n)
    {
      ghost var foods0, s0 := FoodStates(world.foods), gen.state;
      ghost var amoebas, enemies, poisons := world.amoebas, world.enemies, world.poisons;
      for i := 0 to n
        invariant world.Valid() && gen.state == s0 + 4 * i
        invariant world.amoebas == amoebas && world.enemies == enemies && world.poisons == poisons
        invariant FoodStates(world.foods) == foods0 + InitialFoods(gen.draw, s0, i)
      {
        SpawnOneFood(s0, i, foods0);
      }
    }

    /** The poison loop: `n` items, each from four draws, appended in order. */
    method SpawnPoisons(n: nat)
      requires world.Valid() && gen.Valid()
      modifies gen, world
      ensures world.Valid() && gen.state == old(gen.state) + 4 * n
      ensures world.amoebas == old(world.amoebas) && world.enemies == old(world.enemies) && world.foods == old(world.foods)
      ensures PoisonStates(world.poisons) == old(PoisonStates(world.poisons)) + InitialPoisons(gen.draw, old(gen.state), n)
    {
      ghost var poisons0, s0 := PoisonStates(world.poisons), gen.state;
      ghost var amoebas, enemies, foods := world.amoebas, world.enemies, world.foods;
      for i := 0 to n
        invariant world.Valid() && gen.state == s0 + 4 * i
        invariant world.amoebas == amoebas && world.enemies == enemies && world.foods == foods
        invariant PoisonStates(world.poisons) == poisons0 + InitialPoisons(gen.draw, s0, i)
      {
        SpawnOnePoison(s0, i, poisons0);
      }
    }

    /** One enemy's do-while, allowed at most `tries` pairs of draws. */
    method DrawEnemySpot(tries: nat) returns (found: bool, x: real, y: real)
      requires gen.Valid()
      modifies gen
      ensures var r := EnemySpot(gen.draw, old(gen.state), tries);
        found == r.Some? && (found ==> r.value == (x, y, gen.state))
    {
      var left: nat := tries;
      x, y := 0.0, 0.0;
      while left > 0
        invariant left <= tries
        invariant EnemySpot(gen.draw, old(gen.state), tries) == EnemySpot(gen.draw, gen.state, left)
      {
        var rx := gen.Next();
        var ry := gen.Next();
        x, y := rx * WORLD_WIDTH_CM, ry * WORLD_HEIGHT_CM;
        if !NearCentre(x, y) {
          return true, x, y;
        }
        left := left - 1;
      }
      found := false;
    }

    /** One turn of the enemy loop: the do-while, then the enemy numbered by the counter, appended. */
    method SpawnOneEnemy(tries: nat) returns (found: bool)
      requires world.Valid() && world.amoebaIds != world.enemyIds && gen.Valid()
      modifies gen, world, world.enemyIds
      ensures world.Valid()
      ensures world.amoebas == old(world.amoebas) && world.foods == old(world.foods) && world.poisons == old(world.poisons)
      ensures var r := EnemySpot(gen.draw, old(gen.state), tries);
        found == r.Some? &&
        (found ==> && EnemyStates(world.enemies) == old(EnemyStates(world.enemies)) + [PlacedEnemyValue(old(world.enemyIds.next), r.value.0, r.value.1)]
                   && gen.state == r.value.2 && world.enemyIds.next == old(world.enemyIds.next) + 1)
    {
      var x, y;
      found, x, y := DrawEnemySpot(tries);
      if !found {
        return;
      }
      var enemy := new Enemy(world.enemyIds, Pos(CmToPx(x), CmToPx(y)));
      world.AddEnemy(enemy);
    }

    /** One turn of the enemy loop, stated against the loop's specification after `i` enemies. */
    method SpawnNextEnemy(tries: nat, ghost s0: int, ghost e0: nat, ghost i: nat, ghost es: seq<EnemyValue>,
                          ghost enemies0: seq<EnemyValue>) returns (found: bool, ghost e: EnemyValue)
      requires world.Valid() && world.amoebaIds != world.enemyIds && gen.Valid()
      requires world.enemyIds.next == e0 + i && EnemyStates(world.enemies) == enemies0 + es
      requires InitialEnemies(gen.draw, s0, e0, i, tries) == Some((es, gen.state))
      modifies gen, world, world.enemyIds
      ensures world.Valid()
      ensures world.amoebas == old(world.amoebas) && world.foods == old(world.foods) && world.poisons == old(world.poisons)
      ensures !found ==> InitialEnemies(gen.draw, s0, e0, i + 1, tries).None?
      ensures found ==> && world.enemyIds.next == e0 + (i + 1)
                        && InitialEnemies(gen.draw, s0, e0, i + 1, tries) == Some((es + [e], gen.state))
                        && EnemyStates(world.enemies) == enemies0 + (es + [e])
    {
      ghost var st := gen.state;
      InitialEnemiesStep(gen.draw, s0, e0, i, tries, es, st);
      found := SpawnOneEnemy(tries);
      if found {
        ghost var spot := EnemySpot(gen.draw, st, tries).value;
        e := PlacedEnemyValue(e0 + i, spot.0, spot.1);
        AppendAssociative(enemies0, es, [e]);
      } else {
        e := PlacedEnemyValue(0, 0.0, 0.0);
      }
    }

    /** The enemy loop: `n` enemies, each at the end of its do-while, numbered and appended in order. */
    method SpawnEnemies(n: nat, tries: nat) returns (done: bool)
      requires world.Valid() && world.amoebaIds != world.enemyIds && gen.Valid()
      modifies gen, world, world.enemyIds
      ensures world.Valid()
      ensures world.amoebas == old(world.amoebas) && world.foods == old(world.foods) && world.poisons == old(world.poisons)
      ensures var r := InitialEnemies(gen.draw, old(gen.state), old(world.enemyIds.next), n, tries);
        done == r.Some? &&
        (done ==> && EnemyStates(world.enemies) == old(EnemyStates(world.enemies)) + r.value.0
                  && gen.state == r.value.1 && world.enemyIds.next == old(world.enemyIds.next) + n)
    {
      ghost var enemies0, s0, e0 := EnemyStates(world.enemies), gen.state, world.enemyIds.next;
      ghost var amoebas, foods, poisons := world.amoebas, world.foods, world.poisons;
      ghost var es: seq<EnemyValue> := [];
      for i := 0 to n
        invariant world.Valid() && world.enemyIds.next == e0 + i
        invariant world.amoebas == amoebas && world.foods == foods && world.poisons == poisons
        invariant InitialEnemies(gen.draw, s0, e0, i, tries) == Some((es, gen.state))
        invariant EnemyStates(world.enemies) == enemies0 + es
      {
        var found, e := SpawnNextEnemy(tries, s0, e0, i, es, enemies0);
        if !found {
          InitialEnemiesStuck(gen.draw, s0, e0, i + 1, n, tries);
          return false;
        }
        es := es + [e];
      }
      done := true;
    }

    /** The enemy loop seen on the whole world: only the enemy list and its counter change. */
    method SpawnEnemiesInWorld(n: nat, tries: nat) returns (done: bool)
      requires world.Valid() && world.amoebaIds != world.enemyIds && gen.Valid()
      modifies gen, world, world.enemyIds
      ensures world.Valid()
      ensures var r := InitialEnemies(gen.draw, old(gen.state), old(world.enemyIds.next), n, tries);
        done == r.Some? &&
        (done ==> && world.Snapshot() == old(world.Snapshot()).(enemies := old(world.Snapshot()).enemies + r.value.0)
                  && gen.state == r.value.1 && world.enemyIds.next == old(world.enemyIds.next) + n)
    {
      ghost var w := world.Snapshot();
      done := SpawnEnemies(n, tries);
      if done {
        assert AmoebaStates(world.amoebas) == w.amoebas && FoodStates(world.foods) == w.foods;
        assert PoisonStates(world.poisons) == w.poisons;
      }
    }

    /** The food loop seen on the whole world: only the food list changes. */
    method SpawnFoodsInWorld(n: nat)
      requires world.Valid() && gen.Valid()
      modifies gen, world
      ensures world.Valid() && gen.state == old(gen.state) + 4 * n
      ensures world.Snapshot() == old(world.Snapshot()).(foods := old(world.Snapshot()).foods + InitialFoods(gen.draw, old(gen.state), n))
    {
      ghost var w := world.Snapshot();
      SpawnFoods(n);
      assert AmoebaStates(world.amoebas) == w.amoebas && EnemyStates(world.enemies) == w.enemies;
      assert PoisonStates(world.poisons) == w.poisons;
    }

    /** The poison loop seen on the whole world: only the poison list changes. */
    method SpawnPoisonsInWorld(n: nat)
      requires world.Valid() && gen.Valid()
      modifies gen, world
      ensures world.Valid() && gen.state == old(gen.state) + 4 * n
      ensures world.Snapshot() == old(world.Snapshot()).(poisons := old(world.Snapshot()).poisons + InitialPoisons(gen.draw, old(gen.state), n))
    {
      ghost var w := world.Snapshot();
      SpawnPoisons(n);
      assert AmoebaStates(world.amoebas) == w.amoebas && EnemyStates(world.enemies) == w.enemies;
      assert FoodStates(world.foods) == w.foods;
    }

    /** The food loop, then the poison loop drawing on from where it stopped. */
    method SpawnItems(ghost seeded: int)
      requires world.Valid() && gen.Valid() && gen.state == seeded
      modifies gen, world
      ensures world.Valid() && gen.state == seeded + 4 * (INITIAL_FOOD_COUNT + INITIAL_POISON_COUNT)
      ensures world.Snapshot() == old(world.Snapshot()).(
        foods := old(world.Snapshot()).foods + InitialFoods(gen.draw, seeded, INITIAL_FOOD_COUNT),
        poisons := old(world.Snapshot()).poisons + InitialPoisons(gen.draw, seeded + 4 * INITIAL_FOOD_COUNT, INITIAL_POISON_COUNT))
    {
      SpawnFoodsInWorld(INITIAL_FOOD_COUNT);
      SpawnPoisonsInWorld(INITIAL_POISON_COUNT);
    }

    /** The centre amoeba, the food loop and the poison loop, from the state the generator was seeded to. */
    method SpawnStock(ghost seeded: int)
      requires world.Valid() && world.amoebaIds != world.enemyIds && gen.Valid() && gen.state == seeded
      modifies gen, world, world.amoebaIds
      ensures world.Valid() && world.enemyIds.next == old(world.enemyIds.next)
      ensures world.Snapshot() == StockedWorld(gen.draw, old(world.Snapshot()), seeded)
      ensures gen.state == seeded + 4 * (INITIAL_FOOD_COUNT + INITIAL_POISON_COUNT)
    {
      SpawnCentreAmoeba();
      SpawnItems(seeded);
    }

    /**
     * `spawnInitialEntities`: the generator is seeded from the game settings before any draw
     * (`randomDraw` stands for the `Math.random()` a zero seed falls back to), then the centre
     * amoeba, the food, the poison and the enemies are placed.
     */
    method SpawnInitialEntities(randomDraw: real, tries: nat) returns (done: bool)
      requires world.Valid() && world.amoebaIds != world.enemyIds && gen.Valid()
      modifies gen, world, world.amoebaIds, world.enemyIds
      ensures world.Valid()
      ensures var sp := InitialEntities(gen.draw, old(world.Snapshot()), old(world.enemyIds.next),
                                        ActualSeed(store.gameSettings.randomSeed, randomDraw), tries);
        done == sp.Some? &&
        (done ==> world.Snapshot() == sp.value.world && world.enemyIds.next == sp.value.nextEnemy && gen.state == sp.value.state)
    {
      ghost var w0, e0 := world.Snapshot(), world.enemyIds.next;
      var seeded := gen.Seed(store.gameSettings.randomSeed, randomDraw);
      ghost var draw := gen.draw;
      SpawnStock(seeded);
      ghost var stocked := world.Snapshot();
      assert stocked == StockedWorld(draw, w0, seeded);
      done := SpawnEnemiesInWorld(INITIAL_ENEMY_COUNT, tries);
      ghost var r := InitialEnemies(draw, seeded + 4 * (INITIAL_FOOD_COUNT + INITIAL_POISON_COUNT), e0, INITIAL_ENEMY_COUNT, tries);
      ghost var sp := InitialEntities(draw, w0, e0, seeded, tries);
      assert done == r.Some? && sp.Some? == r.Some?;
      if done {
        assert world.Snapshot() == stocked.(enemies := stocked.enemies + r.value.0) == sp.value.world;
      }
    }

    /** `updateStats` of the scene: the statistics of the current world. */
    method UpdateStats()
      requires store.Valid()
      modifies store
      ensures store.Valid() && store.stats == SceneStats(old(store.stats), world.Snapshot())
      ensures (store.llmSettings, store.gameSettings, store.selectedAmoebaId, store.llmLog)
        == old((store.llmSettings, store.gameSettings, store.selectedAmoebaId, store.llmLog))
    {
      var w := WorldValue(AmoebaStates(world.amoebas), EnemyStates(world.enemies), FoodStates(world.foods),
                          PoisonStates(world.poisons), world.amoebaIds.next);
      store.stats := SceneStats(store.stats, w);
    }

    /** The common end of `create()` and `resetGame()`: the first amoeba, if any, becomes the selected one, then `updateStats()`. */
    method SelectFirstAndUpdateStats()
      requires world.Valid() && store.Valid()
      modifies store
      ensures world.Valid() && store.Valid() && world.Snapshot() == old(world.Snapshot())
      ensures var v := world.Snapshot();
        && store.selectedAmoebaId == (if |v.amoebas| > 0 then Some(v.amoebas[0].id) else old(store.selectedAmoebaId))
        && store.stats == SceneStats(old(store.stats), v)
      ensures (store.llmSettings, store.gameSettings, store.llmLog) == old((store.llmSettings, store.gameSettings, store.llmLog))
    {
      ghost var v := world.Snapshot();
      if |world.amoebas| > 0 {
        store.selectedAmoebaId := Some(world.amoebas[0].id);
      }
      assert world.Snapshot() == v;
      UpdateStats();
    }

    /**
     * `create()`: generation, then the first amoeba becomes the selected one, then the
     * statistics are updated. The camera, the input handlers and the drawing are not modelled.
     */
    method Create(randomDraw: real, tries: nat) returns (done: bool)
      requires Valid()
      modifies store, gen, world, world.amoebaIds, world.enemyIds
      ensures Valid()
      ensures var sp := InitialEntities(gen.draw, old(world.Snapshot()), old(world.enemyIds.next),
                                        ActualSeed(store.gameSettings.randomSeed, randomDraw), tries);
        done == sp.Some? &&
        (done ==> && world.Snapshot() == sp.value.world
                  && store.selectedAmoebaId == Some(sp.value.world.amoebas[0].id)
                  && store.stats == SceneStats(old(store.stats), sp.value.world))
      ensures (store.llmSettings, store.gameSettings, store.llmLog) == old((store.llmSettings, store.gameSettings, store.llmLog))
    {
      done := SpawnInitialEntities(randomDraw, tries);
      if !done {
        return;
      }
      SelectFirstAndUpdateStats();
    }

    /** `startGame()`: the cycle manager starts and the statistics say the game runs. */
    method StartGame()
      requires Valid()
      modifies manager, store
      ensures Valid() && manager.cycling
      ensures old(manager.cycling) ==> manager.cycleTimer == old(manager.cycleTimer)
      ensures !old(manager.cycling) ==> manager.cycleTimer == Some(store.gameSettings.cycleIntervalMs)
      ensures store.stats == old(store.stats).(running := true)
      ensures (store.llmSettings, store.gameSettings, store.selectedAmoebaId, store.llmLog)
        == old((store.llmSettings, store.gameSettings, store.selectedAmoebaId, store.llmLog))
    {
      manager.Start();
      store.stats := store.stats.(running := true);
    }

    /** `pauseGame()`: the cycle manager stops and the statistics say the game is paused. */
    method PauseGame()
      requires Valid()
      modifies manager, store
      ensures Valid() && !manager.cycling && manager.cycleTimer.None?
      ensures store.stats == old(store.stats).(running := false)
      ensures (store.llmSettings, store.gameSettings, store.selectedAmoebaId, store.llmLog)
        == old((store.llmSettings, store.gameSettings, store.selectedAmoebaId, store.llmLog))
    {
      manager.Stop();
      store.stats := store.stats.(running := false);
    }

    /**
     * `resetGame()`. The cycle manager in the source has no `clearHistory`, so the call throws
     * right after `stop()`; `hasClearHistory` says whether it exists, and when it does it has
     * no effect on the modelled state. Otherwise the statistics' run flag, cycle number and
     * token counters are zeroed, the log is cleared, the arrays are emptied and the world is
     * generated again; the new centre amoeba becomes the selected one.
     */
    method ResetGame(hasClearHistory: bool, randomDraw: real, tries: nat) returns (threw: bool, done: bool)
      requires Valid()
      modifies manager, store, gen, world, world.amoebaIds, world.enemyIds
      ensures Valid() && !manager.cycling && manager.cycleTimer.None?
      ensures threw == !hasClearHistory
      ensures threw ==> && world.Snapshot() == old(world.Snapshot()) && world.enemyIds.next == old(world.enemyIds.next)
                        && store.stats == old(store.stats) && store.llmLog == old(store.llmLog)
                        && store.selectedAmoebaId == old(store.selectedAmoebaId)
      ensures !threw ==>
        var sp := InitialEntities(gen.draw, EmptyWorld(old(world.amoebaIds.next)), old(world.enemyIds.next),
                                  ActualSeed(store.gameSettings.randomSeed, randomDraw), tries);
        done == sp.Some? &&
        (done ==> && world.Snapshot() == sp.value.world && store.llmLog == []
                  && store.selectedAmoebaId == Some(AmoebaId(old(world.amoebaIds.next)))
                  && store.stats == SceneStats(ResetCounters(old(store.stats)), sp.value.world))
      ensures (store.llmSettings, store.gameSettings) == old((store.llmSettings, store.gameSettings))
    {
      manager.Stop();
      if !hasClearHistory {
        return true, false;
      }
      threw := false;
      store.stats := ResetCounters(store.stats);
      store.ClearLog();
      world.Clear();
      done := SpawnInitialEntities(randomDraw, tries);
      if !done {
        return;
      }
      SelectFirstAndUpdateStats();
    }
  }
}

/**
 * The world phases of one cycle as rules on values: who gets asked for a decision, what a
 * decided action does (move, feed, divide), the poison drain, decay, the removal of the dead and
 * the depleted, the quota respawn and the HUD counts. The cycle manager's methods are proved to
 * move the world by exactly these rules.
 */
module Phases {
  import opened Wrappers
  import opened Constants
  import opened Geometry
  import opened Types
  import opened Resources
  import opened Amoebas
  import opened Enemies
  import opened Vision
  import opened Worlds
  import EnemyAI

  // ----- who is asked -----

  /** `a.alive && !a.isMoving`: the amoebas a cycle asks for a decision. */
  predicate Ready(a: AmoebaValue) {
    a.alive && !a.IsMoving()
  }

  function NotReady(as_: seq<AmoebaValue>): (d: seq<bool>)
  {
    seq(|as_|, i requires 0 <= i < |as_| => !Ready(as_[i]))
  }

  /** The positions of the ready amoebas, in list order. */
  function ReadyIndices(as_: seq<AmoebaValue>): (r: seq<nat>)
    ensures forall k :: 0 <= k < |r| ==> r[k] < |as_| && Ready(as_[r[k]])
  {
    KeptIndices(NotReady(as_))
  }

  /** The ready amoebas are asked in list order. */
  lemma ReadyIndicesIncreasing(as_: seq<AmoebaValue>)
    ensures forall k, l :: 0 <= k < l < |ReadyIndices(as_)| ==> ReadyIndices(as_)[k] < ReadyIndices(as_)[l]
  {
    KeptIndicesIncreasing(NotReady(as_));
    assert ReadyIndices(as_) == KeptIndices(NotReady(as_));
  }

  /** Exactly the amoebas alive and not moving are asked, each once, in list order. */
  lemma ReadyIndicesSpec(as_: seq<AmoebaValue>, i: nat)
    requires i < |as_|
    ensures i in ReadyIndices(as_) <==> Ready(as_[i])
  {
    if Ready(as_[i]) {
      KeptIndicesComplete(NotReady(as_), i);
    }
  }

  // ----- feeding -----

  /** The distance from the amoeba's centre (in centimetres) to a food item. */
  function Reach(pos: Pos, f: FoodValue, env: Env): real {
    DistanceCm(env, pos, ToCm(f.pos))
  }

  /** What the food item offers at the amoeba's centre. */
  function EnergyHere(pos: Pos, f: FoodValue, env: Env): real {
    EnergyAtDistance(f, Reach(pos, f, env))
  }

  /**
   * The food test of both `validateAction` and `handleFeeding`: a not depleted item whose halo
   * holds the centre and that offers at least one unit there.
   */
  predicate Feedable(pos: Pos, f: FoodValue, env: Env) {
    && !Depleted(f.remaining)
    && Reach(pos, f, env) <= f.radius * FOOD_HALO_MULTIPLIER
    && EnergyHere(pos, f, env) >= 1.0
  }

  /** Some food item can feed an amoeba whose centre is at `pos`. */
  predicate CanFeedSomewhere(pos: Pos, foods: seq<FoodValue>, env: Env) {
    exists i :: 0 <= i < |foods| && Feedable(pos, foods[i], env)
  }

  /**
   * The scan of `handleFeeding`: a later item replaces the current choice only when it offers
   * strictly more. The result indexes `foods`.
   */
  function BestFood(pos: Pos, foods: seq<FoodValue>, env: Env): (r: Option<nat>)
    ensures r.Some? ==> r.value < |foods|
  {
    if foods == [] then None
    else
      var prev := BestFood(pos, foods[..|foods| - 1], env);
      var f := foods[|foods| - 1];
      if Feedable(pos, f, env) && (prev.None? || EnergyHere(pos, f, env) > EnergyHere(pos, foods[prev.value], env))
      then Some(|foods| - 1)
      else prev
  }

  /**
   * The chosen item can feed the amoeba, offers the most of all such items and strictly more
   * than every earlier one; nothing is chosen exactly when no item can feed it.
   */
  lemma {:induction false} BestFoodSpec(pos: Pos, foods: seq<FoodValue>, env: Env)
    ensures var r := BestFood(pos, foods, env);
      && (r.None? <==> !CanFeedSomewhere(pos, foods, env))
      && (r.Some? ==> Feedable(pos, foods[r.value], env))
      && (r.Some? ==> forall i :: 0 <= i < |foods| && Feedable(pos, foods[i], env) ==>
            EnergyHere(pos, foods[i], env) <= EnergyHere(pos, foods[r.value], env))
      && (r.Some? ==> forall i :: 0 <= i < r.value && Feedable(pos, foods[i], env) ==>
            EnergyHere(pos, foods[i], env) < EnergyHere(pos, foods[r.value], env))
  {
    if foods != [] {
      var init := foods[..|foods| - 1];
      BestFoodSpec(pos, init, env);
      assert forall i :: 0 <= i < |init| ==> init[i] == foods[i];
    }
  }

  /** `handleFeeding` on values: the amoeba and the food list afterwards. */
  function Fed(a: AmoebaValue, foods: seq<FoodValue>, env: Env): (r: (AmoebaValue, seq<FoodValue>)) {
    match BestFood(ToCm(a.pos), foods, env)
    case None => (a, foods)
    case Some(j) =>
      var c := Consumed(foods[j].remaining);
      (EnergyAdded(a, c * FEEDING_GAIN_PER_CYCLE), foods[j := foods[j].(remaining := foods[j].remaining - c)])
  }

  /**
   * Feeding changes nothing when no item qualifies; otherwise exactly one unit leaves the
   * chosen item, the amoeba gains it up to MAX_ENERGY, and no other item and nothing else about
   * the amoeba changes.
   */
  lemma FedSpec(a: AmoebaValue, foods: seq<FoodValue>, env: Env)
    ensures var r := Fed(a, foods, env); var j := BestFood(ToCm(a.pos), foods, env);
      && |r.1| == |foods|
      && (j.None? ==> r == (a, foods))
      && (j.Some? ==>
            && r.0 == EnergyAdded(a, 1.0)
            && r.1 == foods[j.value := foods[j.value].(remaining := foods[j.value].remaining - 1.0)]
            && foods[j.value].remaining >= 1.0)
  {
    var j := BestFood(ToCm(a.pos), foods, env);
    if j.Some? {
      BestFoodSpec(ToCm(a.pos), foods, env);
      var f := foods[j.value];
      assert EnergyHere(ToCm(a.pos), f, env) <= f.remaining;
    }
  }

  /** The feed check of `validateAction` passes exactly when feeding would find an item. */
  lemma FeedCheckMatchesFeeding(a: AmoebaValue, foods: seq<FoodValue>, env: Env)
    ensures CanFeedSomewhere(ToCm(a.pos), foods, env) <==> BestFood(ToCm(a.pos), foods, env).Some?
  {
    BestFoodSpec(ToCm(a.pos), foods, env);
  }

  // ----- executing one decided action -----

  /** `handleDivision` on values: a dividing amoeba halves and its child is appended. */
  function Divided(w: WorldValue, i: nat, offset: DirOffset): (r: WorldValue)
    requires i < |w.amoebas|
  {
    var a := w.amoebas[i];
    if !CanDivide(a) then w
    else w.(amoebas := w.amoebas[i := DivideParent(a)] + [DivideChild(a, offset, AmoebaId(w.nextAmoeba))],
            nextAmoeba := w.nextAmoeba + 1)
  }

  /** `executeAction(amoebas[i], action)`: move through `applyAction`, feed, divide, or nothing. */
  function Executed(w: WorldValue, i: nat, action: Action, offset: DirOffset, env: Env): (r: WorldValue)
    requires i < |w.amoebas| && |env.directions| > 0
    ensures r.enemies == w.enemies && r.poisons == w.poisons && |r.foods| == |w.foods|
    ensures |w.amoebas| <= |r.amoebas| <= |w.amoebas| + 1
    ensures forall j :: 0 <= j < |w.amoebas| && j != i ==> r.amoebas[j] == w.amoebas[j]
    ensures |r.amoebas| == |w.amoebas| + 1 ==>
      && action.Divide? && CanDivide(w.amoebas[i])
      && r.amoebas[|w.amoebas|] == DivideChild(w.amoebas[i], offset, AmoebaId(w.nextAmoeba))
  {
    var a := w.amoebas[i];
    match action
    case Move(_, _) => w.(amoebas := w.amoebas[i := ActionApplied(a, action, env)])
    case Feed =>
      var fed := Fed(a, w.foods, env);
      w.(amoebas := w.amoebas[i := fed.0], foods := fed.1)
    case Divide => Divided(w, i, offset)
    case Idle => w
  }

  /**
   * The action phase after the first `n` decisions: decision `k` goes to the amoeba at
   * `ready[k]`, which is skipped if it is no longer alive; `offsets(k)` is the angle a division
   * of that amoeba draws.
   */
  function ActionsPhase(w: WorldValue, ready: seq<nat>, actions: seq<Action>, offsets: nat -> DirOffset,
                        env: Env, n: nat): (r: WorldValue)
    requires n <= |ready| == |actions| && |env.directions| > 0
    requires forall k :: 0 <= k < |ready| ==> ready[k] < |w.amoebas|
    ensures r.enemies == w.enemies && r.poisons == w.poisons && |r.foods| == |w.foods|
    ensures |r.amoebas| >= |w.amoebas|
  {
    if n == 0 then w
    else ActionStep(ActionsPhase(w, ready, actions, offsets, env, n - 1), ready, actions, offsets, env, n - 1)
  }

  /** Decision `k` of the phase: the amoeba at `ready[k]` carries out `actions[k]` unless it is dead. */
  function ActionStep(w: WorldValue, ready: seq<nat>, actions: seq<Action>, offsets: nat -> DirOffset,
                      env: Env, k: nat): (r: WorldValue)
    requires k < |ready| == |actions| && ready[k] < |w.amoebas| && |env.directions| > 0
  {
    var i := ready[k];
    if !w.amoebas[i].alive then w else Executed(w, i, actions[k], offsets(k), env)
  }

  /**
   * `ws` lists the worlds of an action phase: each entry after the first is the one before it
   * after the next decision.
   */
  predicate Steps(ws: seq<WorldValue>, ready: seq<nat>, actions: seq<Action>, offsets: nat -> DirOffset, env: Env) {
    && |ws| == |ready| + 1 && |ready| == |actions| && |env.directions| > 0
    && forall k {:trigger ActionStep(ws[k], ready, actions, offsets, env, k)} :: 0 <= k < |ready| ==>
         ready[k] < |ws[k].amoebas| && ws[k + 1] == ActionStep(ws[k], ready, actions, offsets, env, k)
  }

  /** The worlds the action phase passes through: entry `k` is the world after the first `k` decisions. */
  lemma ActionsTrace(w: WorldValue, ready: seq<nat>, actions: seq<Action>, offsets: nat -> DirOffset, env: Env)
    returns (ws: seq<WorldValue>)
    requires |ready| == |actions| && |env.directions| > 0
    requires forall k :: 0 <= k < |ready| ==> ready[k] < |w.amoebas|
    ensures Steps(ws, ready, actions, offsets, env) && ws[0] == w
  {
    ws := seq(|ready| + 1, k requires 0 <= k <= |ready| => ActionsPhase(w, ready, actions, offsets, env, k));
    forall k | 0 <= k < |ready|
      ensures ready[k] < |ws[k].amoebas| && ws[k + 1] == ActionStep(ws[k], ready, actions, offsets, env, k)
    {
      assert ws[k + 1] == ActionsPhase(w, ready, actions, offsets, env, k + 1);
    }
  }

  /** Whatever trace is made of the steps ends where the action phase ends. */
  lemma {:induction false} StepsReach(ws: seq<WorldValue>, ready: seq<nat>, actions: seq<Action>,
                                      offsets: nat -> DirOffset, env: Env, n: nat)
    requires Steps(ws, ready, actions, offsets, env) && n <= |ready|
    requires forall k :: 0 <= k < |ready| ==> ready[k] < |ws[0].amoebas|
    ensures ws[n] == ActionsPhase(ws[0], ready, actions, offsets, env, n)
  {
    if n > 0 {
      StepsReach(ws, ready, actions, offsets, env, n - 1);
      assert ws[n] == ActionStep(ws[n - 1], ready, actions, offsets, env, n - 1);
    }
  }

  /**
   * Only the asked amoebas are changed by the action phase, and everything it adds is a newborn
   * child: alive, not moving and not feeding.
   */
  lemma {:induction false} ActionsPhaseSpec(w: WorldValue, ready: seq<nat>, actions: seq<Action>,
                                            offsets: nat -> DirOffset, env: Env, n: nat)
    requires n <= |ready| == |actions| && |env.directions| > 0
    requires forall k :: 0 <= k < |ready| ==> ready[k] < |w.amoebas|
    ensures var r := ActionsPhase(w, ready, actions, offsets, env, n);
      && (forall j :: 0 <= j < |w.amoebas| && j !in ready[..n] ==> r.amoebas[j] == w.amoebas[j])
      && (forall j :: |w.amoebas| <= j < |r.amoebas| ==>
            r.amoebas[j].alive && !r.amoebas[j].IsMoving() && !r.amoebas[j].feeding)
  {
    if n > 0 {
      ActionsPhaseSpec(w, ready, actions, offsets, env, n - 1);
      assert ready[..n] == ready[..n - 1] + [ready[n - 1]];
    }
  }

  // ----- poison drain -----

  /** How many of the poisons reach the amoeba's centre. */
  function PoisonsReaching(a: AmoebaValue, ps: seq<PoisonValue>, env: Env): nat {
    if ps == [] then 0
    else
      var p := ps[|ps| - 1];
      PoisonsReaching(a, ps[..|ps| - 1], env)
        + if InRange(p, DistanceCm(env, ToCm(a.pos), ToCm(p.pos))) then 1 else 0
  }

  /** The inner loop of `applyPassiveEffects`: one `takeDamage` per poison in range, in order. */
  function Poisoned(a: AmoebaValue, ps: seq<PoisonValue>, env: Env): (r: AmoebaValue)
    ensures r.id == a.id && r.pos == a.pos && r.tween == a.tween && r.feeding == a.feeding
  {
    if ps == [] then a
    else
      var prev := Poisoned(a, ps[..|ps| - 1], env);
      var p := ps[|ps| - 1];
      if InRange(p, DistanceCm(env, ToCm(a.pos), ToCm(p.pos)))
      then Amoebas.Damaged(prev, POISON_DRAIN_PER_CYCLE, env.deathThreshold)
      else prev
  }

  /**
   * An amoeba survives the drain exactly when it was alive and, if any poison reaches it, still
   * has the death threshold after losing one unit per poison in range; a survivor has lost
   * exactly that much.
   */
  lemma {:induction false} PoisonedSpec(a: AmoebaValue, ps: seq<PoisonValue>, env: Env)
    ensures var r := Poisoned(a, ps, env); var n := PoisonsReaching(a, ps, env) as real;
      && (r.alive <==> a.alive && (n == 0.0 || a.energy - n * POISON_DRAIN_PER_CYCLE >= env.deathThreshold))
      && (r.alive ==> r.energy == a.energy - n * POISON_DRAIN_PER_CYCLE)
  {
    if ps != [] {
      var init := ps[..|ps| - 1];
      var p := ps[|ps| - 1];
      PoisonedSpec(a, init, env);
      var m := PoisonsReaching(a, init, env);
      var prev := Poisoned(a, init, env);
      if InRange(p, DistanceCm(env, ToCm(a.pos), ToCm(p.pos))) {
        assert PoisonsReaching(a, ps, env) as real == m as real + 1.0;
      } else {
        assert PoisonsReaching(a, ps, env) == m;
      }
    }
  }

  /** `applyPassiveEffects`: only the amoebas alive at the start of the phase are drained. */
  function PassivePhase(as_: seq<AmoebaValue>, ps: seq<PoisonValue>, env: Env): (r: seq<AmoebaValue>)
  {
    seq(|as_|, i requires 0 <= i < |as_| => if as_[i].alive then Poisoned(as_[i], ps, env) else as_[i])
  }

  // ----- decay -----

  function DecayedFood(f: FoodValue): FoodValue {
    if Depleted(f.remaining) then f else f.(remaining := Decayed(f.remaining))
  }

  function DecayedPoison(p: PoisonValue): PoisonValue {
    if Depleted(p.remaining) then p else p.(remaining := Decayed(p.remaining))
  }

  /** `applyDecay`: every item not yet depleted loses the decay amount. */
  function DecayPhase(w: WorldValue): WorldValue {
    w.(foods := seq(|w.foods|, i requires 0 <= i < |w.foods| => DecayedFood(w.foods[i])),
       poisons := seq(|w.poisons|, i requires 0 <= i < |w.poisons| => DecayedPoison(w.poisons[i])))
  }

  /** The decay touches only the items, each one by itself, and keeps every list's length. */
  lemma DecayPhaseSpec(w: WorldValue)
    ensures var r := DecayPhase(w);
      && r.amoebas == w.amoebas && r.enemies == w.enemies && r.nextAmoeba == w.nextAmoeba
      && |r.foods| == |w.foods| && (forall i :: 0 <= i < |w.foods| ==> r.foods[i] == DecayedFood(w.foods[i]))
      && |r.poisons| == |w.poisons| && (forall i :: 0 <= i < |w.poisons| ==> r.poisons[i] == DecayedPoison(w.poisons[i]))
  {
  }

  /**
   * Decay never raises what an item holds: an item not depleted loses exactly the decay amount,
   * a depleted one is left alone, and food keeps `remaining <= maxEnergy`.
   */
  lemma DecaySpec(f: FoodValue, p: PoisonValue)
    ensures DecayedFood(f).remaining <= f.remaining && DecayedPoison(p).remaining <= p.remaining
    ensures !Depleted(f.remaining) ==> f.remaining - DecayedFood(f).remaining == FOOD_POISON_DECAY_PER_CYCLE
    ensures !Depleted(p.remaining) ==> p.remaining - DecayedPoison(p).remaining == FOOD_POISON_DECAY_PER_CYCLE
    ensures Depleted(f.remaining) ==> DecayedFood(f) == f
    ensures Depleted(p.remaining) ==> DecayedPoison(p) == p
    ensures f.Valid() ==> DecayedFood(f).Valid()
    ensures DecayedFood(f).pos == f.pos && DecayedFood(f).radius == f.radius && DecayedPoison(p).radius == p.radius
  {
  }

  // ----- removal -----

  /** `removeDeadEntities`: the dead and the depleted leave their lists, the rest keep order. */
  function Removed(w: WorldValue): WorldValue {
    WorldValue(
      Kept(w.amoebas, DeadAmoebas(w.amoebas)),
      Kept(w.enemies, DeadEnemies(w.enemies)),
      Kept(w.foods, DepletedFoods(w.foods)),
      Kept(w.poisons, DepletedPoisons(w.poisons)),
      w.nextAmoeba)
  }

  /**
   * After the removal no dead amoeba or enemy and no depleted item is left, and every living
   * or not depleted one still is.
   */
  lemma RemovedSpec(w: WorldValue)
    ensures var r := Removed(w);
      && (forall a :: a in r.amoebas ==> a.alive) && (forall e :: e in r.enemies ==> e.alive)
      && (forall f :: f in r.foods ==> !Depleted(f.remaining))
      && (forall p :: p in r.poisons ==> !Depleted(p.remaining))
      && (forall a :: a in w.amoebas && a.alive ==> a in r.amoebas)
      && (forall e :: e in w.enemies && e.alive ==> e in r.enemies)
      && (forall f :: f in w.foods && !Depleted(f.remaining) ==> f in r.foods)
      && (forall p :: p in w.poisons && !Depleted(p.remaining) ==> p in r.poisons)
  {
    KeptExactly(w.amoebas, DeadAmoebas(w.amoebas), (a: AmoebaValue) => a.alive);
    KeptExactly(w.enemies, DeadEnemies(w.enemies), (e: EnemyValue) => e.alive);
    KeptExactly(w.foods, DepletedFoods(w.foods), (f: FoodValue) => !Depleted(f.remaining));
    KeptExactly(w.poisons, DepletedPoisons(w.poisons), (p: PoisonValue) => !Depleted(p.remaining));
  }

  // ----- respawn -----

  /** The quota test of `respawnItems` for food. */
  predicate FoodDue(cycle: int, foodCount: nat) {
    cycle % FOOD_RESPAWN_INTERVAL_CYCLES as int == 0 && foodCount < INITIAL_FOOD_COUNT
  }

  predicate PoisonDue(cycle: int, poisonCount: nat) {
    cycle % POISON_RESPAWN_INTERVAL_CYCLES as int == 0 && poisonCount < INITIAL_POISON_COUNT
  }

  /** `respawnItems`: at most one food item and one poison item, each from its four draws. */
  function Respawned(w: WorldValue, cycle: int, foodDraws: SpawnDraws, poisonDraws: SpawnDraws): WorldValue {
    w.(foods := w.foods + if FoodDue(cycle, |w.foods|) then [SpawnedFood(foodDraws)] else [],
       poisons := w.poisons + if PoisonDue(cycle, |w.poisons|) then [SpawnedPoison(poisonDraws)] else [])
  }

  /**
   * The respawn adds one food item exactly on every fifth cycle with fewer than 50 items and one
   * poison item exactly on every tenth cycle with fewer than 15; so neither count ever goes past
   * its initial number by a respawn, and nothing else changes.
   */
  lemma RespawnSpec(w: WorldValue, cycle: int, foodDraws: SpawnDraws, poisonDraws: SpawnDraws)
    ensures var r := Respawned(w, cycle, foodDraws, poisonDraws);
      && r.amoebas == w.amoebas && r.enemies == w.enemies
      && r.foods[..|w.foods|] == w.foods && r.poisons[..|w.poisons|] == w.poisons
      && |r.foods| == |w.foods| + (if cycle % 5 == 0 && |w.foods| < 50 then 1 else 0)
      && |r.poisons| == |w.poisons| + (if cycle % 10 == 0 && |w.poisons| < 15 then 1 else 0)
      && (|w.foods| <= 50 ==> |r.foods| <= 50) && (|w.poisons| <= 15 ==> |r.poisons| <= 15)
  {
  }

  // ----- statistics -----

  /** The first living amoeba with the given id, as `find` returns it. */
  function FindAlive(as_: seq<AmoebaValue>, id: string): (r: Option<nat>)
    ensures r.Some? ==> r.value < |as_| && as_[r.value].id == id && as_[r.value].alive
    ensures r.Some? ==> forall i :: 0 <= i < r.value ==> !(as_[i].id == id && as_[i].alive)
    ensures r.None? ==> forall i :: 0 <= i < |as_| ==> !(as_[i].id == id && as_[i].alive)
  {
    if as_ == [] then None
    else if as_[0].id == id && as_[0].alive then Some(0)
    else
      var rest := FindAlive(as_[1..], id);
      if rest.Some? then Some(rest.value + 1) else None
  }

  /** `updateStats` of the cycle manager: the counts and the selected amoeba's energy. */
  function CycleStats(s: GameStats, w: WorldValue, selected: Option<string>): GameStats {
    var energy :=
      if selected.Some? && selected.value != "" then
        match FindAlive(w.amoebas, selected.value)
        case Some(i) => w.amoebas[i].energy
        case None => 0.0
      else if |w.amoebas| > 0 then w.amoebas[0].energy
      else s.selectedAmoebaEnergy;
    s.(amoebaCount := |Kept(w.amoebas, DeadAmoebas(w.amoebas))|,
       foodCount := |Kept(w.foods, DepletedFoods(w.foods))|,
       enemyCount := |Kept(w.enemies, DeadEnemies(w.enemies))|,
       poisonCount := |w.poisons|,
       selectedAmoebaEnergy := energy)
  }

  /**
   * The HUD counts are the numbers of living amoebas and enemies, not depleted food items and
   * all poison items; the energy shown is the selected living amoeba's (0 when it is gone), or
   * the first amoeba's when none is selected, or the old value when there is no amoeba; nothing
   * else changes.
   */
  lemma CycleStatsSpec(s: GameStats, w: WorldValue, selected: Option<string>)
    ensures CycleStats(s, w, selected).amoebaCount == |Kept(w.amoebas, DeadAmoebas(w.amoebas))|
    ensures CycleStats(s, w, selected).foodCount == |Kept(w.foods, DepletedFoods(w.foods))|
    ensures CycleStats(s, w, selected).enemyCount == |Kept(w.enemies, DeadEnemies(w.enemies))|
    ensures CycleStats(s, w, selected).poisonCount == |w.poisons|
    ensures selected.Some? && selected.value != "" ==>
      CycleStats(s, w, selected).selectedAmoebaEnergy == match FindAlive(w.amoebas, selected.value)
        case Some(i) => w.amoebas[i].energy
        case None => 0.0
    ensures (selected.None? || selected.value == "") && |w.amoebas| > 0 ==>
      CycleStats(s, w, selected).selectedAmoebaEnergy == w.amoebas[0].energy
    ensures (selected.None? || selected.value == "") && |w.amoebas| == 0 ==>
      CycleStats(s, w, selected).selectedAmoebaEnergy == s.selectedAmoebaEnergy
    ensures var r := CycleStats(s, w, selected);
      r == s.(amoebaCount := r.amoebaCount, foodCount := r.foodCount, enemyCount := r.enemyCount,
              poisonCount := r.poisonCount, selectedAmoebaEnergy := r.selectedAmoebaEnergy)
  {
  }

  /** Once the dead and the depleted are gone, the counts are simply the list lengths. */
  lemma CountsAfterRemoval(w: WorldValue)
    requires forall i :: 0 <= i < |w.amoebas| ==> w.amoebas[i].alive
    requires forall i :: 0 <= i < |w.enemies| ==> w.enemies[i].alive
    requires forall i :: 0 <= i < |w.foods| ==> !Depleted(w.foods[i].remaining)
    ensures |Kept(w.amoebas, DeadAmoebas(w.amoebas))| == |w.amoebas|
    ensures |Kept(w.enemies, DeadEnemies(w.enemies))| == |w.enemies|
    ensures |Kept(w.foods, DepletedFoods(w.foods))| == |w.foods|
  {
    KeptNone(w.amoebas, DeadAmoebas(w.amoebas));
    KeptNone(w.enemies, DeadEnemies(w.enemies));
    KeptNone(w.foods, DepletedFoods(w.foods));
  }

  // ----- the whole world update of a cycle -----

  /** The phases of a cycle after the decided actions, one per call at the end of `runCycle`. */
  datatype Phase = EnemyMoves | PoisonDrain | Decay | Removal | Respawn

  /** `enemyAI.update`, `applyPassiveEffects`, `applyDecay`, `removeDeadEntities`, `respawnItems`. */
  const CYCLE_PHASES: seq<Phase> := [EnemyMoves, PoisonDrain, Decay, Removal, Respawn]

  /** What the later phases draw on: the cycle number, the enemies' wander draws and the spawn draws. */
  datatype PhaseInputs = PhaseInputs(cycle: int, steps: int -> EnemyAI.WanderStep,
                                     foodDraws: SpawnDraws, poisonDraws: SpawnDraws, env: Env)

  /** The enemy phase on the world the actions left. */
  function Hunted(w: WorldValue, steps: int -> EnemyAI.WanderStep, env: Env): WorldValue {
    var hunted := EnemyAI.EnemyPhase(w.enemies, w.amoebas, w.poisons, steps, env, |w.enemies|);
    w.(enemies := hunted.0, amoebas := hunted.1)
  }

  /** The poison drain on every living amoeba. */
  function Drained(w: WorldValue, env: Env): WorldValue {
    w.(amoebas := PassivePhase(w.amoebas, w.poisons, env))
  }

  function RunPhase(p: Phase, w: WorldValue, inputs: PhaseInputs): WorldValue {
    match p
    case EnemyMoves => Hunted(w, inputs.steps, inputs.env)
    case PoisonDrain => Drained(w, inputs.env)
    case Decay => DecayPhase(w)
    case Removal => Removed(w)
    case Respawn => Respawned(w, inputs.cycle, inputs.foodDraws, inputs.poisonDraws)
  }

  /** The phases `ps`, run one after the other from world `w`. */
  function RunPhases(w: WorldValue, ps: seq<Phase>, inputs: PhaseInputs): WorldValue
    decreases |ps|
  {
    if ps == [] then w else RunPhases(RunPhase(ps[0], w, inputs), ps[1..], inputs)
  }

  /** The later phases of a cycle run exactly in the order `runCycle` calls them. */
  lemma CyclePhasesInOrder(w: WorldValue, inputs: PhaseInputs)
    ensures RunPhases(w, CYCLE_PHASES, inputs)
      == Respawned(Removed(DecayPhase(Drained(Hunted(w, inputs.steps, inputs.env), inputs.env))),
                   inputs.cycle, inputs.foodDraws, inputs.poisonDraws)
  {
    var w1 := Hunted(w, inputs.steps, inputs.env);
    var w2 := Drained(w1, inputs.env);
    var w3 := DecayPhase(w2);
    var w4 := Removed(w3);
    var w5 := Respawned(w4, inputs.cycle, inputs.foodDraws, inputs.poisonDraws);
    var ps := CYCLE_PHASES;
    assert ps[1..][1..][1..][1..][1..] == [];
    assert RunPhases(w4, ps[1..][1..][1..][1..], inputs) == w5;
    assert RunPhases(w3, ps[1..][1..][1..], inputs) == w5;
    assert RunPhases(w2, ps[1..][1..], inputs) == w5;
    assert RunPhases(w1, ps[1..], inputs) == w5;
  }

  /**
   * Everything a cycle does to the world once the decisions are known: the decided actions,
   * then the later phases (`steps(i)` are enemy `i`'s wander draws).
   */
  function CycleWorld(w: WorldValue, cycle: int, actions: seq<Action>, offsets: nat -> DirOffset,
                      steps: int -> EnemyAI.WanderStep, foodDraws: SpawnDraws, poisonDraws: SpawnDraws,
                      env: Env): WorldValue
    requires |actions| == |ReadyIndices(w.amoebas)| && |env.directions| > 0
  {
    var ready := ReadyIndices(w.amoebas);
    RunPhases(ActionsPhase(w, ready, actions, offsets, env, |ready|), CYCLE_PHASES,
              PhaseInputs(cycle, steps, foodDraws, poisonDraws, env))
  }

  /**
   * At the end of a cycle every amoeba and enemy is alive and no item is depleted (the only
   * items added after the removal are fresh spawns, which hold at least 2 units).
   */
  lemma CycleWorldClean(w: WorldValue, cycle: int, actions: seq<Action>, offsets: nat -> DirOffset,
                        steps: int -> EnemyAI.WanderStep, foodDraws: SpawnDraws, poisonDraws: SpawnDraws, env: Env)
    requires |actions| == |ReadyIndices(w.amoebas)| && |env.directions| > 0
    requires foodDraws.InUnit() && poisonDraws.InUnit()
    ensures var r := CycleWorld(w, cycle, actions, offsets, steps, foodDraws, poisonDraws, env);
      && (forall i :: 0 <= i < |r.amoebas| ==> r.amoebas[i].alive)
      && (forall i :: 0 <= i < |r.enemies| ==> r.enemies[i].alive)
      && (forall i :: 0 <= i < |r.foods| ==> !Depleted(r.foods[i].remaining))
      && (forall i :: 0 <= i < |r.poisons| ==> !Depleted(r.poisons[i].remaining))
  {
    var ready := ReadyIndices(w.amoebas);
    var acted := ActionsPhase(w, ready, actions, offsets, env, |ready|);
    var inputs := PhaseInputs(cycle, steps, foodDraws, poisonDraws, env);
    CyclePhasesInOrder(acted, inputs);
    var drained := Drained(Hunted(acted, steps, env), env);
    var removed := Removed(DecayPhase(drained));
    RemovedSpec(DecayPhase(drained));
    SpawnedBounds(foodDraws);
    SpawnedBounds(poisonDraws);
    var r := Respawned(removed, cycle, foodDraws, poisonDraws);
    assert forall i :: 0 <= i < |removed.foods| ==> r.foods[i] == removed.foods[i];
    assert forall i :: 0 <= i < |removed.poisons| ==> r.poisons[i] == removed.poisons[i];
  }
}

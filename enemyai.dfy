/**
 * The enemy phase of a cycle (`EnemyAI.update`): each enemy in turn takes poison damage,
 * chases the nearest prey or wanders, and drains every living amoeba close to it.
 */
module EnemyAI {
  import opened Wrappers
  import opened Constants
  import opened Geometry
  import opened Resources
  import opened Amoebas
  import opened Enemies
  import opened Vision

  /** The random draws of one `wander()` call: the angle's (cos, sin) and the length draw. */
  datatype WanderStep = WanderStep(offset: DirOffset, lengthDraw: real)

  /** The drain reach: two amoeba radii, in centimetres. */
  const DRAIN_RADIUS_CM: real := AMOEBA_RADIUS_CM * ENEMY_DRAIN_RADIUS_MULTIPLIER

  /** An amoeba the enemy at `enemyPos` drains this turn. */
  predicate InDrain(enemyPos: Pos, a: AmoebaValue, env: Env) {
    a.alive && DistanceCm(env, ToCm(a.pos), enemyPos) <= DRAIN_RADIUS_CM
  }

  /** One amoeba after the drain: ENEMY_DRAIN_PER_CYCLE damage if it is in reach, else unchanged. */
  function DrainedOne(enemyPos: Pos, a: AmoebaValue, env: Env): (r: AmoebaValue)
    ensures InDrain(enemyPos, a, env) ==> r == Amoebas.Damaged(a, ENEMY_DRAIN_PER_CYCLE, env.deathThreshold)
    ensures !InDrain(enemyPos, a, env) ==> r == a
  {
    if InDrain(enemyPos, a, env) then Amoebas.Damaged(a, ENEMY_DRAIN_PER_CYCLE, env.deathThreshold) else a
  }

  function DrainAll(enemyPos: Pos, as_: seq<AmoebaValue>, env: Env): (r: seq<AmoebaValue>)
  {
    seq(|as_|, i requires 0 <= i < |as_| => DrainedOne(enemyPos, as_[i], env))
  }

  /** The flag `applyDrainToNearbyAmoebas` returns. */
  predicate AnyDrained(enemyPos: Pos, as_: seq<AmoebaValue>, env: Env) {
    exists i :: 0 <= i < |as_| && InDrain(enemyPos, as_[i], env)
  }

  /** The poison check of a turn: POISON_DRAIN_PER_CYCLE once if any live poison reaches the enemy. */
  function PoisonStage(e: EnemyValue, ps: seq<PoisonValue>, env: Env): EnemyValue {
    if InPoison(ToCm(e.pos), ps, env) then Enemies.Damaged(e, POISON_DRAIN_PER_CYCLE) else e
  }

  /** The move of a turn: chase the nearest prey, or wander when there is none. */
  function MoveStage(e: EnemyValue, as_: seq<AmoebaValue>, step: WanderStep, env: Env): EnemyValue {
    var nearest := NearestAmoeba(ToCm(e.pos), as_, env);
    if nearest.Some? then MovedToward(e, as_[nearest.value].pos, env)
    else Wandered(e, step.offset, step.lengthDraw, env)
  }

  /**
   * One enemy's turn, on values: the enemy and the amoeba list after it. The drain is centred
   * on the enemy's position after its move was started, which is its position before the
   * move, since the move only starts an animation.
   */
  function EnemyStep(e: EnemyValue, as_: seq<AmoebaValue>, ps: seq<PoisonValue>, step: WanderStep, env: Env)
    : (r: (EnemyValue, seq<AmoebaValue>))
    ensures |r.1| == |as_|
  {
    if !e.alive || e.IsMoving() then (e, as_)
    else
      var e1 := PoisonStage(e, ps, env);
      if !e1.alive then (e1, as_)
      else
        var e2 := MoveStage(e1, as_, step, env);
        var at := ToCm(e2.pos);
        (e2.(feeding := AnyDrained(at, as_, env)), DrainAll(at, as_, env))
  }

  lemma EnemyStepFull(e: EnemyValue, as_: seq<AmoebaValue>, ps: seq<PoisonValue>, step: WanderStep, env: Env)
    requires e.alive && !e.IsMoving() && PoisonStage(e, ps, env).alive
    ensures var e2 := MoveStage(PoisonStage(e, ps, env), as_, step, env);
      EnemyStep(e, as_, ps, step, env) == (e2.(feeding := AnyDrained(ToCm(e2.pos), as_, env)), DrainAll(ToCm(e2.pos), as_, env))
  {
  }

  /** The rules of one enemy's turn. */
  lemma EnemyStepSpec(e: EnemyValue, as_: seq<AmoebaValue>, ps: seq<PoisonValue>, step: WanderStep, env: Env)
    ensures var r := EnemyStep(e, as_, ps, step, env);
      var pos := ToCm(e.pos);
      var nearest := NearestAmoeba(pos, as_, env);
      var hurt := if InPoison(pos, ps, env) then Enemies.Damaged(e, POISON_DRAIN_PER_CYCLE) else e;
      // a dead or moving enemy is skipped entirely
      && (!e.alive || e.IsMoving() ==> r == (e, as_))
      // poison hurts once, before moving; an enemy it kills neither moves nor drains
      && (e.alive && !e.IsMoving() && !hurt.alive ==> r == (hurt, as_))
      && (e.alive && !e.IsMoving() && hurt.alive ==>
            // it chases the nearest prey if there is one, and wanders otherwise
            && r.0.(feeding := hurt.feeding) ==
                 (if nearest.Some? then MovedToward(hurt, as_[nearest.value].pos, env)
                  else Wandered(hurt, step.offset, step.lengthDraw, env))
            // the drain is centred on the position before the move
            && r.1 == DrainAll(pos, as_, env)
            && (r.0.feeding <==> AnyDrained(pos, as_, env)))
  {
  }

  /** An enemy's turn never moves it, kills it only through poison, and spends energy only on moving. */
  lemma EnemyStepKeepsPosition(e: EnemyValue, as_: seq<AmoebaValue>, ps: seq<PoisonValue>, step: WanderStep, env: Env)
    ensures EnemyStep(e, as_, ps, step, env).0.pos == e.pos
    ensures EnemyStep(e, as_, ps, step, env).0.alive ==> e.alive
    ensures !EnemyStep(e, as_, ps, step, env).0.alive && e.alive ==> InPoison(ToCm(e.pos), ps, env)
  {
  }

  /** The enemy phase: enemies `0 .. n-1` take their turns in order, each seeing the amoebas the earlier ones left. */
  function EnemyPhase(es: seq<EnemyValue>, as_: seq<AmoebaValue>, ps: seq<PoisonValue>,
                      steps: int -> WanderStep, env: Env, n: nat): (r: (seq<EnemyValue>, seq<AmoebaValue>))
    requires n <= |es|
    ensures |r.0| == |es| && |r.1| == |as_|
    ensures forall i :: n <= i < |es| ==> r.0[i] == es[i]
  {
    if n == 0 then (es, as_)
    else EnemyTurnOf(EnemyPhase(es, as_, ps, steps, env, n - 1), ps, steps, env, n - 1)
  }

  /** Turn `k` of the phase: enemy `k` takes its step and the amoebas take its drain. */
  function EnemyTurnOf(st: (seq<EnemyValue>, seq<AmoebaValue>), ps: seq<PoisonValue>, steps: int -> WanderStep,
                       env: Env, k: nat): (r: (seq<EnemyValue>, seq<AmoebaValue>))
    requires k < |st.0|
  {
    var turn := EnemyStep(st.0[k], st.1, ps, steps(k), env);
    (st.0[k := turn.0], turn.1)
  }

  /** `ts` lists the states of an enemy phase: each entry after the first is the one before it after the next turn. */
  predicate EnemySteps(ts: seq<(seq<EnemyValue>, seq<AmoebaValue>)>, ps: seq<PoisonValue>, steps: int -> WanderStep, env: Env) {
    && |ts| > 0 && |ts| - 1 <= |ts[0].0|
    && forall k {:trigger EnemyTurnOf(ts[k], ps, steps, env, k)} :: 0 <= k < |ts| - 1 ==>
         k < |ts[k].0| && ts[k + 1] == EnemyTurnOf(ts[k], ps, steps, env, k)
  }

  /** The states the first `n` turns of the phase pass through. */
  lemma EnemyTrace(es: seq<EnemyValue>, as_: seq<AmoebaValue>, ps: seq<PoisonValue>, steps: int -> WanderStep,
                   env: Env, n: nat) returns (ts: seq<(seq<EnemyValue>, seq<AmoebaValue>)>)
    requires n <= |es|
    ensures |ts| == n + 1 && ts[0] == (es, as_) && EnemySteps(ts, ps, steps, env)
  {
    ts := seq(n + 1, k requires 0 <= k <= n => EnemyPhase(es, as_, ps, steps, env, k));
    forall k | 0 <= k < n
      ensures k < |ts[k].0| && ts[k + 1] == EnemyTurnOf(ts[k], ps, steps, env, k)
    {
      assert ts[k + 1] == EnemyPhase(es, as_, ps, steps, env, k + 1);
    }
  }

  /** Whatever list of states is made of the turns ends where the phase does. */
  lemma {:induction false} EnemyStepsReach(ts: seq<(seq<EnemyValue>, seq<AmoebaValue>)>, ps: seq<PoisonValue>,
                                           steps: int -> WanderStep, env: Env, n: nat)
    requires EnemySteps(ts, ps, steps, env) && n < |ts|
    ensures ts[n] == EnemyPhase(ts[0].0, ts[0].1, ps, steps, env, n)
  {
    if n > 0 {
      EnemyStepsReach(ts, ps, steps, env, n - 1);
      assert ts[n] == EnemyTurnOf(ts[n - 1], ps, steps, env, n - 1);
    }
  }

  /** No phase of amoeba drains revives an amoeba or adds energy to it. */
  lemma {:induction false} EnemyPhaseOnlyHurts(es: seq<EnemyValue>, as_: seq<AmoebaValue>, ps: seq<PoisonValue>,
                                               steps: int -> WanderStep, env: Env, n: nat)
    requires n <= |es|
    ensures var r := EnemyPhase(es, as_, ps, steps, env, n).1;
      forall i :: 0 <= i < |as_| ==>
        (r[i].alive ==> as_[i].alive) && r[i].energy <= Max(as_[i].energy, 0.0) && r[i].id == as_[i].id && r[i].pos == as_[i].pos
  {
    if n > 0 {
      EnemyPhaseOnlyHurts(es, as_, ps, steps, env, n - 1);
    }
  }

  // ----- the imperative phase -----

  /** No object appears twice in `s`: its first entry is not among the others, and so on. */
  predicate Distinct<T(==)>(s: seq<T>) {
    |s| == 0 || (s[0] !in s[1..] && Distinct(s[1..]))
  }

  /** Distinct entries sit at distinct positions, and conversely. */
  lemma {:induction false} DistinctIndices<T>(s: seq<T>)
    ensures Distinct(s) <==> forall i, j :: 0 <= i < j < |s| ==> s[i] != s[j]
  {
    if |s| > 0 {
      DistinctIndices(s[1..]);
      if Distinct(s) {
        forall i, j | 0 <= i < j < |s| ensures s[i] != s[j] {
          if i > 0 { assert s[i] == s[1..][i - 1] && s[j] == s[1..][j - 1]; }
          else { assert s[j] == s[1..][j - 1]; }
        }
      }
      if forall i, j :: 0 <= i < j < |s| ==> s[i] != s[j] {
        forall i, j | 0 <= i < j < |s[1..]| ensures s[1..][i] != s[1..][j] {
          assert s[1..][i] == s[i + 1] && s[1..][j] == s[j + 1];
        }
        forall j | 0 <= j < |s[1..]| ensures s[1..][j] != s[0] {
          assert s[1..][j] == s[j + 1];
        }
      }
    }
  }

  /** Appending an object that is not yet in the list keeps it free of duplicates. */
  lemma {:induction false} DistinctSnoc<T>(s: seq<T>, x: T)
    requires Distinct(s) && x !in s
    ensures Distinct(s + [x])
  {
    if |s| > 0 {
      assert (s + [x])[1..] == s[1..] + [x];
      DistinctSnoc(s[1..], x);
    }
  }

  /** `applyDrainToNearbyAmoebas(enemy, amoebas)`, with the enemy's position in centimetres. */
  method ApplyDrainToNearbyAmoebas(enemyPos: Pos, amoebas: seq<Amoeba>, env: Env) returns (draining: bool)
    requires Distinct(amoebas)
    modifies amoebas
    ensures AmoebaStates(amoebas) == DrainAll(enemyPos, old(AmoebaStates(amoebas)), env)
    ensures draining == AnyDrained(enemyPos, old(AmoebaStates(amoebas)), env)
  {
    DistinctIndices(amoebas);
    ghost var before := AmoebaStates(amoebas);
    draining := false;
    var i := 0;
    while i < |amoebas|
      invariant 0 <= i <= |amoebas|
      invariant forall j :: 0 <= j < i ==> amoebas[j].State() == DrainedOne(enemyPos, before[j], env)
      invariant forall j :: i <= j < |amoebas| ==> amoebas[j].State() == before[j]
      invariant draining <==> exists j :: 0 <= j < i && InDrain(enemyPos, before[j], env)
    {
      var amoeba := amoebas[i];
      if amoeba.alive {
        var dist := DistanceCm(env, ToCm(amoeba.pos), enemyPos);
        if dist <= DRAIN_RADIUS_CM {
          amoeba.TakeDamage(ENEMY_DRAIN_PER_CYCLE, env.deathThreshold);
          draining := true;
        }
      }
      i := i + 1;
    }
  }

  /** The move of a turn, given the nearest prey already looked up. */
  method MoveTurn(enemy: Enemy, amoebas: seq<Amoeba>, nearest: Option<nat>, step: WanderStep, env: Env)
    requires nearest == NearestAmoeba(ToCm(enemy.pos), AmoebaStates(amoebas), env)
    modifies enemy
    ensures enemy.State() == MoveStage(old(enemy.State()), AmoebaStates(amoebas), step, env)
  {
    ghost var as0 := AmoebaStates(amoebas);
    if nearest.Some? {
      assert nearest.value < |as0|;
      enemy.MoveToward(amoebas[nearest.value].pos, env);
    } else {
      enemy.Wander(step.offset, step.lengthDraw, env);
    }
  }

  /** The poison check and the move of a turn, for a living enemy that is not moving. */
  method PoisonAndMove(enemy: Enemy, amoebas: seq<Amoeba>, poisons: seq<Poison>, step: WanderStep, env: Env)
    requires enemy.alive && enemy.tween.None?
    modifies enemy
    ensures var e1 := PoisonStage(old(enemy.State()), PoisonStates(poisons), env);
      enemy.State() == if e1.alive then MoveStage(e1, AmoebaStates(amoebas), step, env) else e1
  {
    var nearest, inPoison := GetEnemySurroundings(enemy, amoebas, poisons, env);
    if inPoison {
      enemy.TakeDamage(POISON_DRAIN_PER_CYCLE);
    }
    if enemy.alive {
      MoveTurn(enemy, amoebas, nearest, step, env);
    }
  }

  /** One iteration of `update`'s loop, for one enemy. */
  method EnemyTurn(enemy: Enemy, amoebas: seq<Amoeba>, poisons: seq<Poison>, step: WanderStep, env: Env)
    requires Distinct(amoebas)
    modifies enemy, amoebas
    ensures (enemy.State(), AmoebaStates(amoebas))
      == EnemyStep(old(enemy.State()), old(AmoebaStates(amoebas)), PoisonStates(poisons), step, env)
  {
    if !enemy.alive || enemy.tween.Some? {
      return;
    }
    ghost var e0, as0, ps := enemy.State(), AmoebaStates(amoebas), PoisonStates(poisons);
    PoisonAndMove(enemy, amoebas, poisons, step, env);
    if !enemy.alive {
      return;
    }
    ghost var e2 := enemy.State();
    var draining := ApplyDrainToNearbyAmoebas(ToCm(enemy.pos), amoebas, env);
    assert enemy.State() == e2;
    enemy.SetFeeding(draining);
    EnemyStepFull(e0, as0, ps, step, env);
  }

  /** `update(enemies, amoebas, poisons)`; `steps(i)` holds the draws of enemy `i`'s wander. */
  method Update(enemies: seq<Enemy>, amoebas: seq<Amoeba>, poisons: seq<Poison>, steps: int -> WanderStep, env: Env)
    requires Distinct(enemies) && Distinct(amoebas)
    modifies enemies, amoebas
    ensures (EnemyStates(enemies), AmoebaStates(amoebas))
      == EnemyPhase(old(EnemyStates(enemies)), old(AmoebaStates(amoebas)), PoisonStates(poisons), steps, env, |enemies|)
  {
    DistinctIndices(enemies);
    ghost var ps := PoisonStates(poisons);
    ghost var ts := EnemyTrace(EnemyStates(enemies), AmoebaStates(amoebas), ps, steps, env, |enemies|);
    var i := 0;
    while i < |enemies|
      invariant 0 <= i <= |enemies|
      invariant (EnemyStates(enemies), AmoebaStates(amoebas)) == ts[i] && PoisonStates(poisons) == ps
    {
      assert ts[i + 1] == EnemyTurnOf(ts[i], ps, steps, env, i);
      Turn(enemies, amoebas, poisons, steps, env, i, ts[i]);
      i := i + 1;
    }
    EnemyStepsReach(ts, ps, steps, env, |enemies|);
  }

  /** One turn of that loop, seen from the two lists. */
  method Turn(enemies: seq<Enemy>, amoebas: seq<Amoeba>, poisons: seq<Poison>, steps: int -> WanderStep, env: Env,
              i: nat, ghost st: (seq<EnemyValue>, seq<AmoebaValue>))
    requires Distinct(amoebas) && i < |enemies| && forall j :: 0 <= j < |enemies| && j != i ==> enemies[j] != enemies[i]
    requires (EnemyStates(enemies), AmoebaStates(amoebas)) == st
    modifies enemies[i], amoebas
    ensures (EnemyStates(enemies), AmoebaStates(amoebas)) == EnemyTurnOf(st, PoisonStates(poisons), steps, env, i)
  {
    EnemyTurn(enemies[i], amoebas, poisons, steps(i), env);
    assert EnemyStates(enemies) == st.0[i := enemies[i].State()];
  }
}

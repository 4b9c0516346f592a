/**
 * The predator: it chases or wanders, pays for its moves like an amoeba, and dies only from
 * damage. As with amoebas, a move records the animation's destination and the position
 * changes when the animation completes.
 */
module Enemies {
  import opened Wrappers
  import opened Constants
  import opened Geometry
  import opened Text
  import opened Counters
  import Amoebas

  /**
   * An enemy's state; `pos` is in pixels. `feeding` is the flag the AI writes after each
   * drain (the game object never declares it).
   */
  datatype EnemyValue = EnemyValue(
    id: string,
    pos: Pos,
    energy: real,
    alive: bool,
    tween: Option<Pos>,
    feeding: bool)
  {
    predicate IsMoving() { tween.Some? }
  }

  function EnemyId(n: nat): (id: string)
    ensures |id| > |"enemy-"| && id[..|"enemy-"|] == "enemy-"
  {
    "enemy-" + NatToString(n)
  }

  /** The longest chase step: MAX_MOVE_BODY_LENGTHS body lengths, in pixels. */
  const MAX_STEP_PX: real := MAX_MOVE_BODY_LENGTHS * AMOEBA_RADIUS_PX * 2.0

  lemma MaxStepIs150()
    ensures MAX_STEP_PX == 150.0
  {
  }

  /** Start a move to the clamped `dest`: pay for it as an amoeba does and record the animation. */
  function StartMove(e: EnemyValue, dest: Pos, env: Env): (r: EnemyValue)
    ensures r.IsMoving() && r.tween.value == dest
    ensures r.id == e.id && r.pos == e.pos && r.alive == e.alive && r.feeding == e.feeding
    ensures r.energy == Amoebas.MoveEnergy(e.energy, env.dist(e.pos, dest))
  {
    e.(energy := Amoebas.MoveEnergy(e.energy, env.dist(e.pos, dest)), tween := Some(dest))
  }

  /** The chase destination before clamping: at most MAX_STEP_PX along the line to the target. */
  function ChaseTarget(e: EnemyValue, target: Pos, dist: real): (p: Pos)
    requires dist > 0.0
    ensures dist <= MAX_STEP_PX ==> p == target
  {
    var ratio := Min(dist, MAX_STEP_PX) / dist;
    Pos(e.pos.x + (target.x - e.pos.x) * ratio, e.pos.y + (target.y - e.pos.y) * ratio)
  }

  /**
   * `moveToward(targetX, targetY)`: nothing happens to a dead or moving enemy or for a
   * target closer than one pixel; otherwise a step of at most MAX_STEP_PX towards the target,
   * clamped into the world.
   */
  function MovedToward(e: EnemyValue, target: Pos, env: Env): (r: EnemyValue)
    ensures !e.alive || e.IsMoving() || env.dist(e.pos, target) < 1.0 ==> r == e
    ensures e.alive && !e.IsMoving() && env.dist(e.pos, target) >= 1.0 ==>
      r == StartMove(e, ClampToWorld(ChaseTarget(e, target, env.dist(e.pos, target))), env)
    ensures r.alive == e.alive
  {
    if !e.alive || e.IsMoving() then e
    else
      var dist := env.dist(e.pos, target);
      if dist < 1.0 then e
      else StartMove(e, ClampToWorld(ChaseTarget(e, target, dist)), env)
  }

  /** A chased target within one step and inside the world is reached exactly. */
  lemma ChaseReachesCloseTarget(e: EnemyValue, target: Pos, env: Env)
    requires e.alive && !e.IsMoving()
    requires 1.0 <= env.dist(e.pos, target) <= MAX_STEP_PX && InWorld(target)
    ensures MovedToward(e, target, env).tween == Some(target)
  {
  }

  /**
   * `wander()`: `offset` is the random angle's (cos, sin) and `lengthDraw` the random draw
   * behind `1 + Math.random() * 2` body lengths.
   */
  function Wandered(e: EnemyValue, offset: DirOffset, lengthDraw: real, env: Env): (r: EnemyValue)
    ensures !e.alive || e.IsMoving() ==> r == e
    ensures e.alive && !e.IsMoving() ==> r.IsMoving() && InWorld(r.tween.value)
    ensures e.alive && !e.IsMoving() ==> r == StartMove(e, ClampToWorld(WanderTarget(e, offset, lengthDraw)), env)
    ensures e.alive && !e.IsMoving() ==>
      r.energy == Amoebas.MoveEnergy(e.energy, env.dist(e.pos, ClampToWorld(WanderTarget(e, offset, lengthDraw))))
    ensures r.alive == e.alive && r.pos == e.pos
  {
    if !e.alive || e.IsMoving() then e
    else StartMove(e, ClampToWorld(WanderTarget(e, offset, lengthDraw)), env)
  }

  /** The unclamped wander target: `1 + 2 * lengthDraw` body lengths along `offset`. */
  function WanderTarget(e: EnemyValue, offset: DirOffset, lengthDraw: real): Pos {
    var distPx := WanderLengthPx(lengthDraw);
    Pos(e.pos.x + offset.cos * distPx, e.pos.y + offset.sin * distPx)
  }

  /** A wander's length in pixels: one to three body lengths for a draw in [0, 1). */
  function WanderLengthPx(lengthDraw: real): (d: real)
    ensures 0.0 <= lengthDraw < 1.0 ==> AMOEBA_RADIUS_PX * 2.0 <= d < 3.0 * AMOEBA_RADIUS_PX * 2.0
  {
    (1.0 + lengthDraw * 2.0) * AMOEBA_RADIUS_PX * 2.0
  }

  /** `takeDamage`: at or below MIN_ENERGY the enemy dies with MIN_ENERGY left. */
  function Damaged(e: EnemyValue, amount: real): (r: EnemyValue)
    ensures r.energy == if e.energy - amount <= MIN_ENERGY then MIN_ENERGY else e.energy - amount
    ensures r.energy >= MIN_ENERGY
    ensures r.alive <==> e.alive && e.energy - amount > MIN_ENERGY
    ensures r.id == e.id && r.pos == e.pos && r.tween == e.tween && r.feeding == e.feeding
  {
    var hit := e.(energy := e.energy - amount);
    if hit.energy <= MIN_ENERGY then hit.(energy := MIN_ENERGY, alive := false) else hit
  }

  /** The end of a move's animation. */
  function TweenCompleted(e: EnemyValue): (r: EnemyValue)
    ensures !r.IsMoving()
    ensures e.IsMoving() ==> r.pos == e.tween.value
    ensures r.energy == e.energy && r.alive == e.alive && r.id == e.id
  {
    match e.tween
    case Some(dest) => e.(pos := dest, tween := None)
    case None => e
  }

  class Enemy {
    const id: string
    var pos: Pos
    var energy: real
    var alive: bool
    var tween: Option<Pos>
    var feeding: bool

    /** `new Enemy(scene, x, y)`: a fresh id and STARTING_ENERGY. */
    constructor(counter: Counter, pos: Pos)
      modifies counter
      ensures State() == EnemyValue(EnemyId(old(counter.next)), pos, STARTING_ENERGY, true, None, false)
      ensures counter.next == old(counter.next) + 1
    {
      this.id := EnemyId(counter.next);
      this.pos := pos;
      this.energy := STARTING_ENERGY;
      this.alive := true;
      this.tween := None;
      this.feeding := false;
      counter.next := counter.next + 1;
    }

    function State(): EnemyValue
      reads this
    {
      EnemyValue(id, pos, energy, alive, tween, feeding)
    }

    method MoveToward(target: Pos, env: Env)
      modifies this
      ensures State() == MovedToward(old(State()), target, env)
    {
      if !alive || tween.Some? {
        return;
      }
      var dist := env.dist(pos, target);
      if dist < 1.0 {
        return;
      }
      var before := State();
      var dest := ClampToWorld(ChaseTarget(before, target, dist));
      energy := Amoebas.MoveEnergy(energy, env.dist(pos, dest));
      tween := Some(dest);
    }

    method Wander(offset: DirOffset, lengthDraw: real, env: Env)
      modifies this
      ensures State() == Wandered(old(State()), offset, lengthDraw, env)
    {
      if !alive || tween.Some? {
        return;
      }
      var after := Wandered(State(), offset, lengthDraw, env);
      energy := after.energy;
      tween := after.tween;
    }

    method TakeDamage(amount: real)
      modifies this
      ensures State() == Damaged(old(State()), amount)
    {
      energy := energy - amount;
      if energy <= MIN_ENERGY {
        energy := MIN_ENERGY;
        alive := false;
      }
    }

    method SetFeeding(draining: bool)
      modifies this
      ensures State() == old(State()).(feeding := draining)
    {
      feeding := draining;
    }

    method CompleteTween()
      modifies this
      ensures State() == TweenCompleted(old(State()))
    {
      if tween.Some? {
        pos := tween.value;
        tween := None;
      }
    }
  }

  function EnemyStates(xs: seq<Enemy>): (vs: seq<EnemyValue>)
    reads xs
  {
    seq(|xs|, i reads xs requires 0 <= i < |xs| => xs[i].State())
  }
}

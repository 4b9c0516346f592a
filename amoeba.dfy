/**
 * The LLM-driven amoeba: its energy and life rules, its moves, division, and the id counter.
 * Every rule is a function on the `AmoebaValue` snapshot; the `Amoeba` class holds the
 * fields the game object updates in place, and each of its methods moves its snapshot by the
 * matching rule.
 */
module Amoebas {
  import opened Wrappers
  import opened Constants
  import opened Geometry
  import opened Text
  import opened Types
  import opened Counters

  /**
   * An amoeba's state; `pos` is in pixels. `tween` is the destination of the move being
   * animated, present exactly while `isAnimating` holds in the game object: the position
   * only changes when that animation completes.
   */
  datatype AmoebaValue = AmoebaValue(
    id: string,
    pos: Pos,
    energy: real,
    alive: bool,
    feeding: bool,
    tween: Option<Pos>)
  {
    predicate IsMoving() { tween.Some? }
  }

  /** The id of the `n`-th amoeba created since the counter was reset. */
  function AmoebaId(n: nat): (id: string)
    ensures |id| > |"amoeba-"| && id[..|"amoeba-"|] == "amoeba-"
  {
    "amoeba-" + NatToString(n)
  }

  /** Different counter values give different ids. */
  lemma AmoebaIdInjective(m: nat, n: nat)
    requires m != n
    ensures AmoebaId(m) != AmoebaId(n)
  {
    if AmoebaId(m) == AmoebaId(n) {
      PrefixedNumberInjective("amoeba-", m, n);
    }
  }

  /** `getState()`: the prompt's view, with the position in centimetres. */
  function View(a: AmoebaValue): (s: AmoebaState)
    ensures s.id == a.id && s.energy == a.energy && s.alive == a.alive
    ensures CmToPx(s.position.x) == a.pos.x && CmToPx(s.position.y) == a.pos.y
  {
    AmoebaState(a.id, ToCm(a.pos), a.energy, a.alive)
  }

  /** `addEnergy`: the gain is capped at MAX_ENERGY; nothing but the energy changes. */
  function EnergyAdded(a: AmoebaValue, amount: real): (r: AmoebaValue)
    ensures r.energy <= MAX_ENERGY
    ensures a.energy + amount <= MAX_ENERGY ==> r.energy == a.energy + amount
    ensures a.energy + amount > MAX_ENERGY ==> r.energy == MAX_ENERGY
    ensures r == a.(energy := r.energy)
  {
    a.(energy := Min(MAX_ENERGY, a.energy + amount))
  }

  /** `checkDeath`: below the threshold the amoeba dies with energy 0. */
  function CheckDeath(a: AmoebaValue, threshold: real): (r: AmoebaValue)
    ensures a.energy < threshold ==> r == a.(energy := 0.0, alive := false)
    ensures a.energy >= threshold ==> r == a
  {
    if a.energy < threshold then a.(energy := 0.0, alive := false) else a
  }

  /** `takeDamage`: subtract, then the death check. */
  function Damaged(a: AmoebaValue, amount: real, threshold: real): (r: AmoebaValue)
    ensures r.alive <==> a.alive && a.energy - amount >= threshold
    ensures r.energy == if a.energy - amount < threshold then 0.0 else a.energy - amount
    ensures r.id == a.id && r.pos == a.pos && r.feeding == a.feeding && r.tween == a.tween
  {
    CheckDeath(a.(energy := a.energy - amount), threshold)
  }

  /** `canDivide`. */
  predicate CanDivide(a: AmoebaValue) {
    a.energy >= DIVISION_ENERGY_THRESHOLD
  }

  /** The parent after a division: half of its energy is handed to the child. */
  function DivideParent(a: AmoebaValue): (r: AmoebaValue)
    ensures r == a.(energy := r.energy) && r.energy * 2.0 == a.energy
  {
    a.(energy := a.energy / 2.0)
  }

  /**
   * The child of a division: `(cos, sin)` is the random angle's offset, the child sits three
   * radii away in that direction, clamped into the world, and starts with half the energy.
   */
  function DivideChild(a: AmoebaValue, offset: DirOffset, childId: string): (c: AmoebaValue)
    ensures InWorld(c.pos) && c.energy * 2.0 == a.energy
    ensures c.id == childId && c.alive && !c.feeding && !c.IsMoving()
  {
    var d := AMOEBA_RADIUS_PX * 3.0;
    AmoebaValue(childId,
      ClampToWorld(Pos(a.pos.x + offset.cos * d, a.pos.y + offset.sin * d)),
      a.energy / 2.0, true, false, None)
  }

  /** A division conserves the parent's energy between parent and child. */
  lemma DivisionConservesEnergy(a: AmoebaValue, offset: DirOffset, childId: string)
    ensures DivideParent(a).energy + DivideChild(a, offset, childId).energy == a.energy
  {
  }

  /** `DIRECTIONS[direction] ?? DIRECTIONS[0]`. */
  function DirectionOffset(env: Env, direction: int): (o: DirOffset)
    requires |env.directions| > 0
    ensures o in env.directions
    ensures 0 <= direction < |env.directions| ==> o == env.directions[direction]
  {
    if 0 <= direction < |env.directions| then env.directions[direction] else env.directions[0]
  }

  /** The pixel destination of a move, before clamping (`y` grows downwards on screen). */
  function MoveTarget(a: AmoebaValue, offset: DirOffset, bodyLengths: real): Pos {
    var distPx := bodyLengths * AMOEBA_RADIUS_PX * 2.0;
    Pos(a.pos.x + offset.cos * distPx, a.pos.y - offset.sin * distPx)
  }

  /** The energy of a move: body lengths actually travelled times the cost, floored at MIN_ENERGY. */
  function MoveEnergy(energy: real, travelledPx: real): (e: real)
    ensures e >= MIN_ENERGY
    ensures travelledPx >= 0.0 && energy >= MIN_ENERGY ==> e <= energy
  {
    Max(MIN_ENERGY, energy - travelledPx / (AMOEBA_RADIUS_PX * 2.0) * MOVE_ENERGY_COST_PER_BODY_LENGTH)
  }

  /** Where a move in `direction` over `bodyLengths` ends: the target clamped into the world. */
  function MoveDestination(a: AmoebaValue, direction: int, bodyLengths: real, env: Env): (dest: Pos)
    requires |env.directions| > 0
    ensures InWorld(dest)
  {
    ClampToWorld(MoveTarget(a, DirectionOffset(env, direction), bodyLengths))
  }

  /**
   * `moveInDirection` (only ever called on a living amoeba): the energy pays for the distance
   * actually travelled to the clamped destination, the death check follows, and only a
   * survivor starts the animation towards the destination. The position itself is left to
   * the animation.
   */
  function MoveInDirection(a: AmoebaValue, direction: int, bodyLengths: real, env: Env): (r: AmoebaValue)
    requires a.alive && |env.directions| > 0
    ensures r.id == a.id && r.pos == a.pos && r.feeding == a.feeding
    ensures var e := MoveEnergy(a.energy, env.dist(a.pos, MoveDestination(a, direction, bodyLengths, env)));
      if e < env.deathThreshold then r.energy == 0.0 && !r.alive && r.tween == a.tween
      else r.energy == e && r.alive && r.tween == Some(MoveDestination(a, direction, bodyLengths, env))
  {
    var dest := MoveDestination(a, direction, bodyLengths, env);
    var checked := CheckDeath(a.(energy := MoveEnergy(a.energy, env.dist(a.pos, dest))), env.deathThreshold);
    if checked.alive then checked.(tween := Some(dest)) else checked
  }

  /** A move never raises the energy and never takes it below MIN_ENERGY. */
  lemma MoveEnergyBounds(a: AmoebaValue, direction: int, bodyLengths: real, env: Env)
    requires a.alive && |env.directions| > 0 && env.DistNonNegative()
    requires a.energy >= MIN_ENERGY && env.deathThreshold >= MIN_ENERGY
    ensures MIN_ENERGY <= MoveInDirection(a, direction, bodyLengths, env).energy <= a.energy
  {
    var dest := MoveDestination(a, direction, bodyLengths, env);
    assert env.dist(a.pos, dest) >= 0.0;
  }

  /** `applyAction`: a dead amoeba ignores the action; feed raises the feeding flag. */
  function ActionApplied(a: AmoebaValue, action: Action, env: Env): (r: AmoebaValue)
    requires |env.directions| > 0
    ensures !a.alive ==> r == a
    ensures a.alive && !action.Move? ==> r.energy == a.energy && r.pos == a.pos && r.alive
    ensures a.alive && action.Feed? ==> r == a.(feeding := true)
    ensures a.alive && (action.Divide? || action.Idle?) ==> r == a
    ensures a.alive && action.Move? ==> r == MoveInDirection(a, action.direction, action.distance, env)
  {
    if !a.alive then a
    else match action
      case Move(direction, distance) => MoveInDirection(a, direction, distance, env)
      case Feed => a.(feeding := true)
      case Divide => a
      case Idle => a
  }

  /**
   * Whether `applyAction` calls its completion callback at once rather than when the move's
   * animation ends: always, except for a move that the amoeba survives.
   */
  predicate CompletesAtOnce(a: AmoebaValue, action: Action, env: Env)
    requires |env.directions| > 0
  {
    !a.alive || !action.Move? || !ActionApplied(a, action, env).alive
  }

  /** A dead amoeba only has its callback invoked. */
  lemma DeadIgnoresAction(a: AmoebaValue, action: Action, env: Env)
    requires |env.directions| > 0 && !a.alive
    ensures ActionApplied(a, action, env) == a && CompletesAtOnce(a, action, env)
  {
  }

  /** The end of a move's animation: the amoeba arrives at the destination. */
  function TweenCompleted(a: AmoebaValue): (r: AmoebaValue)
    ensures !r.IsMoving()
    ensures a.IsMoving() ==> r.pos == a.tween.value
    ensures r.energy == a.energy && r.alive == a.alive && r.id == a.id
  {
    match a.tween
    case Some(dest) => a.(pos := dest, tween := None)
    case None => a
  }

  class Amoeba {
    const id: string
    var pos: Pos
    var energy: real
    var alive: bool
    var feeding: bool
    var tween: Option<Pos>

    /** `new Amoeba(scene, x, y, energy?)`: a fresh id and STARTING_ENERGY unless given. */
    constructor(counter: Counter, pos: Pos, energy: Option<real>)
      modifies counter
      ensures State() == AmoebaValue(AmoebaId(old(counter.next)), pos, energy.GetOr(STARTING_ENERGY), true, false, None)
      ensures counter.next == old(counter.next) + 1
    {
      this.id := AmoebaId(counter.next);
      this.pos := pos;
      this.energy := energy.GetOr(STARTING_ENERGY);
      this.alive := true;
      this.feeding := false;
      this.tween := None;
      counter.next := counter.next + 1;
    }

    function State(): AmoebaValue
      reads this
    {
      AmoebaValue(id, pos, energy, alive, feeding, tween)
    }

    method AddEnergy(amount: real)
      modifies this
      ensures State() == EnergyAdded(old(State()), amount)
    {
      energy := Min(MAX_ENERGY, energy + amount);
    }

    method TakeDamage(amount: real, threshold: real)
      modifies this
      ensures State() == Damaged(old(State()), amount, threshold)
    {
      energy := energy - amount;
      if energy < threshold {
        energy := 0.0;
        alive := false;
      }
    }

    /** `divide()`: null when the amoeba cannot divide, otherwise the new child. */
    method Divide(counter: Counter, offset: DirOffset) returns (child: Amoeba?)
      modifies this, counter
      ensures !CanDivide(old(State())) ==> child == null && State() == old(State()) && counter.next == old(counter.next)
      ensures CanDivide(old(State())) ==>
        child != null && fresh(child) && counter.next == old(counter.next) + 1
        && State() == DivideParent(old(State()))
        && child.State() == DivideChild(old(State()), offset, AmoebaId(old(counter.next)))
    {
      if energy < DIVISION_ENERGY_THRESHOLD {
        return null;
      }
      var parent := State();
      energy := energy / 2.0;
      var c := DivideChild(parent, offset, AmoebaId(counter.next));
      child := new Amoeba(counter, c.pos, Some(c.energy));
    }

    /** `applyAction(action)`; the result says whether the callback runs at once. */
    method ApplyAction(action: Action, env: Env) returns (completesAtOnce: bool)
      requires |env.directions| > 0
      modifies this
      ensures State() == ActionApplied(old(State()), action, env)
      ensures completesAtOnce == CompletesAtOnce(old(State()), action, env)
    {
      var before := State();
      if !alive {
        return true;
      }
      match action {
        case Move(direction, distance) =>
          var after := MoveInDirection(before, direction, distance, env);
          energy := after.energy;
          alive := after.alive;
          tween := after.tween;
          completesAtOnce := !after.alive;
        case Feed =>
          feeding := true;
          completesAtOnce := true;
        case Divide =>
          completesAtOnce := true;
        case Idle =>
          completesAtOnce := true;
      }
    }

    /** The move animation's completion handler. */
    method CompleteTween()
      modifies this
      ensures State() == TweenCompleted(old(State()))
    {
      if tween.Some? {
        pos := tween.value;
        tween := None;
      }
    }

    /** The delayed call that ends a feeding display. */
    method EndFeeding()
      modifies this
      ensures State() == old(State()).(feeding := false)
    {
      feeding := false;
    }
  }

  function AmoebaStates(xs: seq<Amoeba>): (vs: seq<AmoebaValue>)
    reads xs
  {
    seq(|xs|, i reads xs requires 0 <= i < |xs| => xs[i].State())
  }
}

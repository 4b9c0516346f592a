/**
 * What an amoeba sees (`getSurroundings`) and what an enemy senses (`getEnemySurroundings`).
 * Each kind of object is listed by a filter over its list; the combined list is then sorted
 * by distance with JavaScript's stable sort, modelled as an insertion sort.
 */
module Vision {
  import opened Wrappers
  import opened Constants
  import opened Geometry
  import opened Types
  import opened Resources
  import opened Amoebas
  import opened Enemies

  /** `distanceCm(a, b)`: the Euclidean distance of two centimetre positions. */
  function DistanceCm(env: Env, a: Pos, b: Pos): real {
    env.dist(a, b)
  }

  // ----- the entries of one kind -----

  /** The entries `entry(x)` of the elements `x` of `s` that satisfy `visible`, in order. */
  function FilterMap<T>(s: seq<T>, visible: T -> bool, entry: T -> NearbyObject): (r: seq<NearbyObject>)
    ensures |r| <= |s|
  {
    if s == [] then []
    else
      var last := s[|s| - 1];
      FilterMap(s[..|s| - 1], visible, entry) + (if visible(last) then [entry(last)] else [])
  }

  /** An element is listed iff it is visible, and every listed entry comes from a visible element. */
  lemma {:induction false} FilterMapIff<T>(s: seq<T>, visible: T -> bool, entry: T -> NearbyObject)
    ensures forall i :: 0 <= i < |s| && visible(s[i]) ==> entry(s[i]) in FilterMap(s, visible, entry)
    ensures forall o :: o in FilterMap(s, visible, entry) ==>
      exists i :: 0 <= i < |s| && visible(s[i]) && o == entry(s[i])
  {
    if s != [] {
      var init := s[..|s| - 1];
      FilterMapIff(init, visible, entry);
      assert forall i :: 0 <= i < |init| ==> init[i] == s[i];
    }
  }

  predicate FoodVisible(viewer: Pos, f: FoodValue, visionRadius: real, env: Env) {
    !Depleted(f.remaining)
    && DistanceCm(env, viewer, ToCm(f.pos)) <= visionRadius + f.radius * FOOD_HALO_MULTIPLIER
  }

  /** A food entry carries the radius, the energy left and the energy reaching the viewer. */
  function FoodEntry(viewer: Pos, f: FoodValue, env: Env): (o: NearbyObject)
    ensures o.kind == FoodKind && o.distance == DistanceCm(env, viewer, ToCm(f.pos))
    ensures viewer.x + o.relativePosition.x == ToCm(f.pos).x && viewer.y + o.relativePosition.y == ToCm(f.pos).y
    ensures o.details == Some([("radius", Num(f.radius)), ("energy", Num(f.remaining)),
      ("energyAtPosition", Num(EnergyAtDistance(f, o.distance)))])
  {
    var dist := DistanceCm(env, viewer, ToCm(f.pos));
    NearbyObject(FoodKind, Offset(viewer, ToCm(f.pos)), dist,
      Some([("radius", Num(f.radius)), ("energy", Num(f.remaining)),
        ("energyAtPosition", Num(EnergyAtDistance(f, dist)))]))
  }

  function FoodEntries(viewer: Pos, fs: seq<FoodValue>, visionRadius: real, env: Env): seq<NearbyObject> {
    FilterMap(fs, f => FoodVisible(viewer, f, visionRadius, env), f => FoodEntry(viewer, f, env))
  }

  predicate PoisonVisible(viewer: Pos, p: PoisonValue, visionRadius: real, env: Env) {
    !Depleted(p.remaining)
    && DistanceCm(env, viewer, ToCm(p.pos)) <= visionRadius + p.radius * FOOD_HALO_MULTIPLIER
  }

  /** A poison entry carries only the radius. */
  function PoisonEntry(viewer: Pos, p: PoisonValue, env: Env): (o: NearbyObject)
    ensures o.kind == PoisonKind && o.distance == DistanceCm(env, viewer, ToCm(p.pos))
    ensures viewer.x + o.relativePosition.x == ToCm(p.pos).x && viewer.y + o.relativePosition.y == ToCm(p.pos).y
    ensures o.details == Some([("radius", Num(p.radius))])
  {
    NearbyObject(PoisonKind, Offset(viewer, ToCm(p.pos)), DistanceCm(env, viewer, ToCm(p.pos)),
      Some([("radius", Num(p.radius))]))
  }

  function PoisonEntries(viewer: Pos, ps: seq<PoisonValue>, visionRadius: real, env: Env): seq<NearbyObject> {
    FilterMap(ps, p => PoisonVisible(viewer, p, visionRadius, env), p => PoisonEntry(viewer, p, env))
  }

  predicate EnemyVisible(viewer: Pos, e: EnemyValue, visionRadius: real, env: Env) {
    e.alive && DistanceCm(env, viewer, ToCm(e.pos)) <= visionRadius
  }

  /** An enemy entry has no details. */
  function EnemyEntry(viewer: Pos, e: EnemyValue, env: Env): (o: NearbyObject)
    ensures o.kind == EnemyKind && o.distance == DistanceCm(env, viewer, ToCm(e.pos))
    ensures viewer.x + o.relativePosition.x == ToCm(e.pos).x && viewer.y + o.relativePosition.y == ToCm(e.pos).y
    ensures o.details == None
  {
    NearbyObject(EnemyKind, Offset(viewer, ToCm(e.pos)), DistanceCm(env, viewer, ToCm(e.pos)), None)
  }

  function EnemyEntries(viewer: Pos, es: seq<EnemyValue>, visionRadius: real, env: Env): seq<NearbyObject> {
    FilterMap(es, e => EnemyVisible(viewer, e, visionRadius, env), e => EnemyEntry(viewer, e, env))
  }

  /** Another amoeba is seen when alive, within range and not the viewer itself (same id). */
  predicate OtherVisible(viewer: AmoebaValue, a: AmoebaValue, visionRadius: real, env: Env) {
    a.alive && a.id != viewer.id && DistanceCm(env, ToCm(viewer.pos), ToCm(a.pos)) <= visionRadius
  }

  /** Another amoeba's entry carries its energy. */
  function OtherEntry(viewer: Pos, a: AmoebaValue, env: Env): (o: NearbyObject)
    ensures o.kind == AmoebaKind && o.distance == DistanceCm(env, viewer, ToCm(a.pos))
    ensures viewer.x + o.relativePosition.x == ToCm(a.pos).x && viewer.y + o.relativePosition.y == ToCm(a.pos).y
    ensures o.details == Some([("energy", Num(a.energy))])
  {
    NearbyObject(AmoebaKind, Offset(viewer, ToCm(a.pos)), DistanceCm(env, viewer, ToCm(a.pos)),
      Some([("energy", Num(a.energy))]))
  }

  function OtherEntries(viewer: AmoebaValue, as_: seq<AmoebaValue>, visionRadius: real, env: Env): seq<NearbyObject> {
    FilterMap(as_, a => OtherVisible(viewer, a, visionRadius, env), a => OtherEntry(ToCm(viewer.pos), a, env))
  }

  // ----- the stable sort by distance -----

  predicate SortedByDistance(s: seq<NearbyObject>) {
    forall i, j :: 0 <= i < j < |s| ==> s[i].distance <= s[j].distance
  }

  /** Where `x` goes in `s`: after the last element whose distance is at most its own. */
  function InsertPos(s: seq<NearbyObject>, x: NearbyObject): (k: nat)
    ensures k <= |s|
    ensures forall i :: k <= i < |s| ==> s[i].distance > x.distance
    ensures k > 0 ==> s[k - 1].distance <= x.distance
  {
    if s == [] then 0
    else if s[|s| - 1].distance <= x.distance then |s|
    else InsertPos(s[..|s| - 1], x)
  }

  function Insert(s: seq<NearbyObject>, x: NearbyObject): seq<NearbyObject> {
    var k := InsertPos(s, x);
    s[..k] + [x] + s[k..]
  }

  /** `result.sort((a, b) => a.distance - b.distance)`, a stable sort. */
  function SortByDistance(s: seq<NearbyObject>): seq<NearbyObject> {
    if s == [] then [] else Insert(SortByDistance(s[..|s| - 1]), s[|s| - 1])
  }

  /** The entries of `s` at distance `d`, in order. */
  function AtDistance(s: seq<NearbyObject>, d: real): seq<NearbyObject> {
    if s == [] then []
    else AtDistance(s[..|s| - 1], d) + (if s[|s| - 1].distance == d then [s[|s| - 1]] else [])
  }

  lemma {:induction false} AtDistanceConcat(a: seq<NearbyObject>, b: seq<NearbyObject>, d: real)
    ensures AtDistance(a + b, d) == AtDistance(a, d) + AtDistance(b, d)
    decreases |b|
  {
    if b == [] {
      assert a + b == a;
    } else {
      var b' := b[..|b| - 1];
      assert (a + b)[..|a + b| - 1] == a + b';
      assert (a + b)[|a + b| - 1] == b[|b| - 1];
      AtDistanceConcat(a, b', d);
    }
  }

  lemma {:induction false} AtDistanceNone(s: seq<NearbyObject>, d: real)
    requires forall i :: 0 <= i < |s| ==> s[i].distance != d
    ensures AtDistance(s, d) == []
  {
    if s != [] {
      AtDistanceNone(s[..|s| - 1], d);
    }
  }

  lemma InsertIndex(s: seq<NearbyObject>, x: NearbyObject, i: int)
    requires 0 <= i <= |s|
    ensures var k := InsertPos(s, x);
      Insert(s, x)[i] == if i < k then s[i] else if i == k then x else s[i - 1]
  {
  }

  lemma InsertSorted(s: seq<NearbyObject>, x: NearbyObject)
    requires SortedByDistance(s)
    ensures SortedByDistance(Insert(s, x))
  {
    var k := InsertPos(s, x);
    var r := Insert(s, x);
    forall i, j | 0 <= i < j < |r|
      ensures r[i].distance <= r[j].distance
    {
      InsertIndex(s, x, i);
      InsertIndex(s, x, j);
      if i < k && j == k {
        assert s[i].distance <= s[k - 1].distance;
      }
    }
  }

  lemma InsertPermutes(s: seq<NearbyObject>, x: NearbyObject)
    ensures multiset(Insert(s, x)) == multiset(s) + multiset{x}
  {
    var k := InsertPos(s, x);
    assert s[..k] + s[k..] == s;
  }

  /** Inserting `x` appends it to the entries at its own distance and leaves the others alone. */
  lemma InsertAtDistance(s: seq<NearbyObject>, x: NearbyObject, d: real)
    ensures AtDistance(Insert(s, x), d) == AtDistance(s, d) + (if x.distance == d then [x] else [])
  {
    var k := InsertPos(s, x);
    assert s[..k] + s[k..] == s;
    AtDistanceAround(s[..k], x, s[k..], d);
  }

  /**
   * Cutting `s` at the insertion point of `x`: the part after the cut holds nothing at `x`'s
   * distance, and the entries at any distance are those of the two parts with `x` between.
   */
  lemma AtDistanceAround(pre: seq<NearbyObject>, x: NearbyObject, post: seq<NearbyObject>, d: real)
    requires forall i :: 0 <= i < |post| ==> post[i].distance > x.distance
    ensures AtDistance(pre + [x] + post, d)
         == AtDistance(pre + post, d) + (if x.distance == d then [x] else [])
  {
    AtDistanceConcat(pre + [x], post, d);
    AtDistanceConcat(pre, [x], d);
    AtDistanceConcat(pre, post, d);
    assert [x][..0] == [];
    if x.distance == d {
      AtDistanceNone(post, d);
    }
  }

  /** The sort yields a sorted permutation of its input. */
  lemma {:induction false} SortSortedPermutation(s: seq<NearbyObject>)
    ensures SortedByDistance(SortByDistance(s))
    ensures multiset(SortByDistance(s)) == multiset(s)
  {
    if s != [] {
      var init := s[..|s| - 1];
      SortSortedPermutation(init);
      InsertSorted(SortByDistance(init), s[|s| - 1]);
      InsertPermutes(SortByDistance(init), s[|s| - 1]);
      assert init + [s[|s| - 1]] == s;
    }
  }

  /** The sort is stable: the entries at any one distance keep their original order. */
  lemma {:induction false} SortStable(s: seq<NearbyObject>, d: real)
    ensures AtDistance(SortByDistance(s), d) == AtDistance(s, d)
  {
    if s != [] {
      var init := s[..|s| - 1];
      SortStable(init, d);
      InsertAtDistance(SortByDistance(init), s[|s| - 1], d);
    }
  }

  // ----- getSurroundings -----

  /** The entries before sorting: foods, poisons, enemies, then other amoebas. */
  function Unsorted(viewer: AmoebaValue, amoebas: seq<AmoebaValue>, enemies: seq<EnemyValue>,
                    foods: seq<FoodValue>, poisons: seq<PoisonValue>, visionRadius: real, env: Env): seq<NearbyObject>
  {
    var pos := ToCm(viewer.pos);
    FoodEntries(pos, foods, visionRadius, env) + PoisonEntries(pos, poisons, visionRadius, env)
      + EnemyEntries(pos, enemies, visionRadius, env) + OtherEntries(viewer, amoebas, visionRadius, env)
  }

  /** `getSurroundings`: the visible objects, nearest first. */
  function Surroundings(viewer: AmoebaValue, amoebas: seq<AmoebaValue>, enemies: seq<EnemyValue>,
                        foods: seq<FoodValue>, poisons: seq<PoisonValue>, visionRadius: real, env: Env): seq<NearbyObject>
  {
    SortByDistance(Unsorted(viewer, amoebas, enemies, foods, poisons, visionRadius, env))
  }

  /** The listed objects are the unsorted entries, sorted, with none added or dropped. */
  lemma SurroundingsSortedPermutation(viewer: AmoebaValue, amoebas: seq<AmoebaValue>, enemies: seq<EnemyValue>,
                                      foods: seq<FoodValue>, poisons: seq<PoisonValue>, visionRadius: real, env: Env)
    ensures var r := Surroundings(viewer, amoebas, enemies, foods, poisons, visionRadius, env);
      SortedByDistance(r) && multiset(r) == multiset(Unsorted(viewer, amoebas, enemies, foods, poisons, visionRadius, env))
  {
    SortSortedPermutation(Unsorted(viewer, amoebas, enemies, foods, poisons, visionRadius, env));
  }

  lemma InSurroundings(viewer: AmoebaValue, amoebas: seq<AmoebaValue>, enemies: seq<EnemyValue>,
                       foods: seq<FoodValue>, poisons: seq<PoisonValue>, visionRadius: real, env: Env, o: NearbyObject)
    ensures var pos := ToCm(viewer.pos);
      o in Surroundings(viewer, amoebas, enemies, foods, poisons, visionRadius, env) <==>
      o in FoodEntries(pos, foods, visionRadius, env) || o in PoisonEntries(pos, poisons, visionRadius, env)
      || o in EnemyEntries(pos, enemies, visionRadius, env) || o in OtherEntries(viewer, amoebas, visionRadius, env)
  {
    var u := Unsorted(viewer, amoebas, enemies, foods, poisons, visionRadius, env);
    SortSortedPermutation(u);
    var r := SortByDistance(u);
    assert o in r <==> o in multiset(r);
    assert o in u <==> o in multiset(u);
  }

  /** A food is listed iff it passes the food test; every food entry comes from such a food. */
  lemma FoodListedIff(viewer: AmoebaValue, amoebas: seq<AmoebaValue>, enemies: seq<EnemyValue>,
                      foods: seq<FoodValue>, poisons: seq<PoisonValue>, visionRadius: real, env: Env)
    ensures var r := Surroundings(viewer, amoebas, enemies, foods, poisons, visionRadius, env);
      var pos := ToCm(viewer.pos);
      && (forall i :: 0 <= i < |foods| && FoodVisible(pos, foods[i], visionRadius, env) ==> FoodEntry(pos, foods[i], env) in r)
      && (forall o :: o in r && o.kind == FoodKind ==>
            exists i :: 0 <= i < |foods| && FoodVisible(pos, foods[i], visionRadius, env) && o == FoodEntry(pos, foods[i], env))
  {
    var pos := ToCm(viewer.pos);
    var r := Surroundings(viewer, amoebas, enemies, foods, poisons, visionRadius, env);
    FilterMapIff(foods, f => FoodVisible(pos, f, visionRadius, env), f => FoodEntry(pos, f, env));
    FilterMapIff(poisons, p => PoisonVisible(pos, p, visionRadius, env), p => PoisonEntry(pos, p, env));
    FilterMapIff(enemies, e => EnemyVisible(pos, e, visionRadius, env), e => EnemyEntry(pos, e, env));
    FilterMapIff(amoebas, a => OtherVisible(viewer, a, visionRadius, env), a => OtherEntry(pos, a, env));
    forall o | true
      ensures o in r <==> (o in FoodEntries(pos, foods, visionRadius, env) || o in PoisonEntries(pos, poisons, visionRadius, env)
        || o in EnemyEntries(pos, enemies, visionRadius, env) || o in OtherEntries(viewer, amoebas, visionRadius, env))
    {
      InSurroundings(viewer, amoebas, enemies, foods, poisons, visionRadius, env, o);
    }
  }
  /** A poison is listed iff it passes the poison test; every poison entry comes from such a poison. */
  lemma PoisonListedIff(viewer: AmoebaValue, amoebas: seq<AmoebaValue>, enemies: seq<EnemyValue>,
                      foods: seq<FoodValue>, poisons: seq<PoisonValue>, visionRadius: real, env: Env)
    ensures var r := Surroundings(viewer, amoebas, enemies, foods, poisons, visionRadius, env);
      var pos := ToCm(viewer.pos);
      && (forall i :: 0 <= i < |poisons| && PoisonVisible(pos, poisons[i], visionRadius, env) ==> PoisonEntry(pos, poisons[i], env) in r)
      && (forall o :: o in r && o.kind == PoisonKind ==>
            exists i :: 0 <= i < |poisons| && PoisonVisible(pos, poisons[i], visionRadius, env) && o == PoisonEntry(pos, poisons[i], env))
  {
    var pos := ToCm(viewer.pos);
    var r := Surroundings(viewer, amoebas, enemies, foods, poisons, visionRadius, env);
    FilterMapIff(foods, f => FoodVisible(pos, f, visionRadius, env), f => FoodEntry(pos, f, env));
    FilterMapIff(poisons, p => PoisonVisible(pos, p, visionRadius, env), p => PoisonEntry(pos, p, env));
    FilterMapIff(enemies, e => EnemyVisible(pos, e, visionRadius, env), e => EnemyEntry(pos, e, env));
    FilterMapIff(amoebas, a => OtherVisible(viewer, a, visionRadius, env), a => OtherEntry(pos, a, env));
    forall o | true
      ensures o in r <==> (o in FoodEntries(pos, foods, visionRadius, env) || o in PoisonEntries(pos, poisons, visionRadius, env)
        || o in EnemyEntries(pos, enemies, visionRadius, env) || o in OtherEntries(viewer, amoebas, visionRadius, env))
    {
      InSurroundings(viewer, amoebas, enemies, foods, poisons, visionRadius, env, o);
    }
  }
  /** An enemy is listed iff it is alive and in range; every enemy entry comes from such an enemy. */
  lemma EnemyListedIff(viewer: AmoebaValue, amoebas: seq<AmoebaValue>, enemies: seq<EnemyValue>,
                      foods: seq<FoodValue>, poisons: seq<PoisonValue>, visionRadius: real, env: Env)
    ensures var r := Surroundings(viewer, amoebas, enemies, foods, poisons, visionRadius, env);
      var pos := ToCm(viewer.pos);
      && (forall i :: 0 <= i < |enemies| && EnemyVisible(pos, enemies[i], visionRadius, env) ==> EnemyEntry(pos, enemies[i], env) in r)
      && (forall o :: o in r && o.kind == EnemyKind ==>
            exists i :: 0 <= i < |enemies| && EnemyVisible(pos, enemies[i], visionRadius, env) && o == EnemyEntry(pos, enemies[i], env))
  {
    var pos := ToCm(viewer.pos);
    var r := Surroundings(viewer, amoebas, enemies, foods, poisons, visionRadius, env);
    FilterMapIff(foods, f => FoodVisible(pos, f, visionRadius, env), f => FoodEntry(pos, f, env));
    FilterMapIff(poisons, p => PoisonVisible(pos, p, visionRadius, env), p => PoisonEntry(pos, p, env));
    FilterMapIff(enemies, e => EnemyVisible(pos, e, visionRadius, env), e => EnemyEntry(pos, e, env));
    FilterMapIff(amoebas, a => OtherVisible(viewer, a, visionRadius, env), a => OtherEntry(pos, a, env));
    forall o | true
      ensures o in r <==> (o in FoodEntries(pos, foods, visionRadius, env) || o in PoisonEntries(pos, poisons, visionRadius, env)
        || o in EnemyEntries(pos, enemies, visionRadius, env) || o in OtherEntries(viewer, amoebas, visionRadius, env))
    {
      InSurroundings(viewer, amoebas, enemies, foods, poisons, visionRadius, env, o);
    }
  }
  /** Another amoeba is listed iff it is alive, in range and not the viewer; every amoeba entry comes from one. */
  lemma OtherListedIff(viewer: AmoebaValue, amoebas: seq<AmoebaValue>, enemies: seq<EnemyValue>,
                      foods: seq<FoodValue>, poisons: seq<PoisonValue>, visionRadius: real, env: Env)
    ensures var r := Surroundings(viewer, amoebas, enemies, foods, poisons, visionRadius, env);
      var pos := ToCm(viewer.pos);
      && (forall i :: 0 <= i < |amoebas| && OtherVisible(viewer, amoebas[i], visionRadius, env) ==> OtherEntry(pos, amoebas[i], env) in r)
      && (forall o :: o in r && o.kind == AmoebaKind ==>
            exists i :: 0 <= i < |amoebas| && OtherVisible(viewer, amoebas[i], visionRadius, env) && o == OtherEntry(pos, amoebas[i], env))
  {
    var pos := ToCm(viewer.pos);
    var r := Surroundings(viewer, amoebas, enemies, foods, poisons, visionRadius, env);
    FilterMapIff(foods, f => FoodVisible(pos, f, visionRadius, env), f => FoodEntry(pos, f, env));
    FilterMapIff(poisons, p => PoisonVisible(pos, p, visionRadius, env), p => PoisonEntry(pos, p, env));
    FilterMapIff(enemies, e => EnemyVisible(pos, e, visionRadius, env), e => EnemyEntry(pos, e, env));
    FilterMapIff(amoebas, a => OtherVisible(viewer, a, visionRadius, env), a => OtherEntry(pos, a, env));
    forall o | true
      ensures o in r <==> (o in FoodEntries(pos, foods, visionRadius, env) || o in PoisonEntries(pos, poisons, visionRadius, env)
        || o in EnemyEntries(pos, enemies, visionRadius, env) || o in OtherEntries(viewer, amoebas, visionRadius, env))
    {
      InSurroundings(viewer, amoebas, enemies, foods, poisons, visionRadius, env, o);
    }
  }

  /** `getSurroundings(viewer, amoebas, enemies, foods, poisons, visionRadius)`. */
  method GetSurroundings(viewer: Amoeba, amoebas: seq<Amoeba>, enemies: seq<Enemy>, foods: seq<Food>,
                         poisons: seq<Poison>, visionRadius: real, env: Env) returns (result: seq<NearbyObject>)
    ensures result == Surroundings(viewer.State(), AmoebaStates(amoebas), EnemyStates(enemies),
                                   FoodStates(foods), PoisonStates(poisons), visionRadius, env)
  {
    var pos := ToCm(viewer.pos);
    var fe := ScanFoods(pos, foods, visionRadius, env);
    var pe := ScanPoisons(pos, poisons, visionRadius, env);
    var ee := ScanEnemies(pos, enemies, visionRadius, env);
    var oe := ScanOthers(viewer, amoebas, visionRadius, env);
    result := SortByDistance(fe + pe + ee + oe);
  }

  /** The loop of `getSurroundings` over the food items. */
  method ScanFoods(pos: Pos, foods: seq<Food>, visionRadius: real, env: Env) returns (result: seq<NearbyObject>)
    ensures result == FoodEntries(pos, FoodStates(foods), visionRadius, env)
  {
    var fs := FoodStates(foods);
    result := [];
    var i := 0;
    while i < |foods|
      invariant 0 <= i <= |foods|
      invariant result == FoodEntries(pos, fs[..i], visionRadius, env)
    {
      assert fs[..i + 1][..i] == fs[..i];
      var food := foods[i];
      if !food.IsDepleted() {
        var fPos := ToCm(food.pos);
        var dist := DistanceCm(env, pos, fPos);
        if dist <= visionRadius + food.radiusCm * FOOD_HALO_MULTIPLIER {
          result := result + [NearbyObject(FoodKind, Offset(pos, fPos), dist,
            Some([("radius", Num(food.radiusCm)), ("energy", Num(food.remainingEnergy)),
              ("energyAtPosition", Num(EnergyAtDistance(food.State(), dist)))]))];
        }
      }
      i := i + 1;
    }
    assert fs[..|foods|] == fs;
  }

  /** The loop over the poison items. */
  method ScanPoisons(pos: Pos, poisons: seq<Poison>, visionRadius: real, env: Env) returns (result: seq<NearbyObject>)
    ensures result == PoisonEntries(pos, PoisonStates(poisons), visionRadius, env)
  {
    var ps := PoisonStates(poisons);
    result := [];
    var i := 0;
    while i < |poisons|
      invariant 0 <= i <= |poisons|
      invariant result == PoisonEntries(pos, ps[..i], visionRadius, env)
    {
      assert ps[..i + 1][..i] == ps[..i];
      var poison := poisons[i];
      if !poison.IsDepleted() {
        var pPos := ToCm(poison.pos);
        var dist := DistanceCm(env, pos, pPos);
        if dist <= visionRadius + poison.radiusCm * FOOD_HALO_MULTIPLIER {
          result := result + [NearbyObject(PoisonKind, Offset(pos, pPos), dist, Some([("radius", Num(poison.radiusCm))]))];
        }
      }
      i := i + 1;
    }
    assert ps[..|poisons|] == ps;
  }

  /** The loop over the enemies. */
  method ScanEnemies(pos: Pos, enemies: seq<Enemy>, visionRadius: real, env: Env) returns (result: seq<NearbyObject>)
    ensures result == EnemyEntries(pos, EnemyStates(enemies), visionRadius, env)
  {
    var es := EnemyStates(enemies);
    result := [];
    var i := 0;
    while i < |enemies|
      invariant 0 <= i <= |enemies|
      invariant result == EnemyEntries(pos, es[..i], visionRadius, env)
    {
      assert es[..i + 1][..i] == es[..i];
      var enemy := enemies[i];
      if enemy.alive {
        var ePos := ToCm(enemy.pos);
        var dist := DistanceCm(env, pos, ePos);
        if dist <= visionRadius {
          result := result + [NearbyObject(EnemyKind, Offset(pos, ePos), dist, None)];
        }
      }
      i := i + 1;
    }
    assert es[..|enemies|] == es;
  }

  /** The loop over the other amoebas: the viewer itself is skipped by id. */
  method ScanOthers(viewer: Amoeba, amoebas: seq<Amoeba>, visionRadius: real, env: Env) returns (result: seq<NearbyObject>)
    ensures result == OtherEntries(viewer.State(), AmoebaStates(amoebas), visionRadius, env)
  {
    var pos := ToCm(viewer.pos);
    var os := AmoebaStates(amoebas);
    result := [];
    var i := 0;
    while i < |amoebas|
      invariant 0 <= i <= |amoebas|
      invariant result == OtherEntries(viewer.State(), os[..i], visionRadius, env)
    {
      assert os[..i + 1][..i] == os[..i];
      var other := amoebas[i];
      if other.alive && other.id != viewer.id {
        var oPos := ToCm(other.pos);
        var dist := DistanceCm(env, pos, oPos);
        if dist <= visionRadius {
          result := result + [NearbyObject(AmoebaKind, Offset(pos, oPos), dist, Some([("energy", Num(other.energy))]))];
        }
      }
      i := i + 1;
    }
    assert os[..|amoebas|] == os;
  }

  // ----- getEnemySurroundings -----

  /** An amoeba the enemy can target: alive and within ENEMY_VISION_CM of `pos`. */
  predicate Prey(pos: Pos, a: AmoebaValue, env: Env) {
    a.alive && DistanceCm(env, pos, ToCm(a.pos)) <= ENEMY_VISION_CM
  }

  /**
   * The scan for `nearestAmoeba`, as the loop performs it: a later amoeba replaces the current
   * choice only when it is strictly closer. The result is an index into `as_`.
   */
  function NearestAmoeba(pos: Pos, as_: seq<AmoebaValue>, env: Env): (r: Option<nat>)
    ensures r.Some? ==> r.value < |as_|
  {
    if as_ == [] then None
    else
      var prev := NearestAmoeba(pos, as_[..|as_| - 1], env);
      var a := as_[|as_| - 1];
      var d := DistanceCm(env, pos, ToCm(a.pos));
      if Prey(pos, a, env) && (prev.None? || d < DistanceCm(env, pos, ToCm(as_[prev.value].pos)))
      then Some(|as_| - 1)
      else prev
  }

  /**
   * The scan finds the prey at minimum distance, the earliest of those on a tie, and finds
   * nothing exactly when there is no prey.
   */
  lemma {:induction false} NearestAmoebaSpec(pos: Pos, as_: seq<AmoebaValue>, env: Env)
    ensures var r := NearestAmoeba(pos, as_, env);
      && (r.None? <==> forall i :: 0 <= i < |as_| ==> !Prey(pos, as_[i], env))
      && (r.Some? ==> Prey(pos, as_[r.value], env))
      && (r.Some? ==> forall i :: 0 <= i < |as_| && Prey(pos, as_[i], env) ==>
            DistanceCm(env, pos, ToCm(as_[r.value].pos)) <= DistanceCm(env, pos, ToCm(as_[i].pos)))
      && (r.Some? ==> forall i :: 0 <= i < r.value && Prey(pos, as_[i], env) ==>
            DistanceCm(env, pos, ToCm(as_[r.value].pos)) < DistanceCm(env, pos, ToCm(as_[i].pos)))
  {
    if as_ != [] {
      var init := as_[..|as_| - 1];
      NearestAmoebaSpec(pos, init, env);
      assert forall i :: 0 <= i < |init| ==> init[i] == as_[i];
    }
  }

  /** `inPoison`: some non-depleted poison reaches the enemy's position. */
  predicate InPoison(pos: Pos, ps: seq<PoisonValue>, env: Env) {
    exists i :: 0 <= i < |ps| && !Depleted(ps[i].remaining) && InRange(ps[i], DistanceCm(env, pos, ToCm(ps[i].pos)))
  }

  /** `getEnemySurroundings(enemy, amoebas, poisons)`; `nearest` indexes `amoebas`. */
  method GetEnemySurroundings(enemy: Enemy, amoebas: seq<Amoeba>, poisons: seq<Poison>, env: Env)
    returns (nearest: Option<nat>, inPoison: bool)
    ensures nearest == NearestAmoeba(ToCm(enemy.pos), AmoebaStates(amoebas), env)
    ensures inPoison == InPoison(ToCm(enemy.pos), PoisonStates(poisons), env)
  {
    var pos := ToCm(enemy.pos);
    nearest := ScanEnemyPrey(pos, amoebas, env);
    inPoison := ScanPoisonReach(pos, poisons, env);
  }

  /** The amoeba loop of `getEnemySurroundings`: the closest living amoeba in vision, first on ties. */
  method ScanEnemyPrey(pos: Pos, amoebas: seq<Amoeba>, env: Env) returns (nearest: Option<nat>)
    ensures nearest == NearestAmoeba(pos, AmoebaStates(amoebas), env)
  {
    var os := AmoebaStates(amoebas);
    nearest := None;
    var nearestDist := 0.0;
    var i := 0;
    while i < |amoebas|
      invariant 0 <= i <= |amoebas|
      invariant nearest == NearestAmoeba(pos, os[..i], env)
      invariant nearest.Some? ==> nearest.value < i && nearestDist == DistanceCm(env, pos, ToCm(os[nearest.value].pos))
    {
      ghost var init, a := os[..i + 1], os[i];
      assert init[..i] == os[..i] && init[|init| - 1] == a == amoebas[i].State();
      assert nearest.Some? ==> init[nearest.value] == os[nearest.value];
      var amoeba := amoebas[i];
      if amoeba.alive {
        var dist := DistanceCm(env, pos, ToCm(amoeba.pos));
        if dist <= ENEMY_VISION_CM && (nearest.None? || dist < nearestDist) {
          nearestDist := dist;
          nearest := Some(i);
        }
      }
      i := i + 1;
    }
    assert os[..|amoebas|] == os;
  }

  /** The poison loop of `getEnemySurroundings`: it stops at the first poison that reaches `pos`. */
  method ScanPoisonReach(pos: Pos, poisons: seq<Poison>, env: Env) returns (inPoison: bool)
    ensures inPoison == InPoison(pos, PoisonStates(poisons), env)
  {
    var ps := PoisonStates(poisons);
    inPoison := false;
    var i := 0;
    while i < |poisons|
      invariant 0 <= i <= |poisons|
      invariant !inPoison ==> forall j :: 0 <= j < i ==>
        !(!Depleted(ps[j].remaining) && InRange(ps[j], DistanceCm(env, pos, ToCm(ps[j].pos))))
      invariant inPoison ==> InPoison(pos, ps, env)
    {
      var poison := poisons[i];
      assert ps[i] == poison.State();
      if !poison.IsDepleted() {
        var dist := DistanceCm(env, pos, ToCm(poison.pos));
        if InRange(poison.State(), dist) {
          inPoison := true;
          break;
        }
      }
      i := i + 1;
    }
  }
}

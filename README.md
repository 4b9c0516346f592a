# llm_amoeba core, modelled in Dafny

llm_amoeba is a browser simulation. Amoebas live in a 2-D world of food, poison and enemies,
and a language model decides each amoeba's next move. This project models the simulation's
deterministic core and proves properties of it:

- **Entities** (`amoeba.dfy`, `enemy.dfy`, `resources.dfy`). `Amoeba`, `Enemy`, `Food` and
  `Poison` are classes with the source's fields.
  - Each class has a value snapshot (`AmoebaValue`, ...) and pure rule functions over it:
    energy gain and loss, death check, division, moves, wandering, decay, consumption.
  - Every mutating method is proved to leave the object in the state that its rule function
    gives for the old state.
- **Units and constants** (`constants.dfy`, `geometry.dfy`): the pixel/centimetre scale
  (1200 px per cm), the world bounds, clamping, and the hexagonal direction table.
- **Random numbers** (`rng.dfy`): the Mulberry32 generator, written out on 32-bit words.
  - The scene draws from a generator object.
  - The generator's stream depends only on its seed.
- **Vision** (`vision.dfy`): the surroundings an amoeba or an enemy sees.
  - Each list is proved to be sorted by distance and to be a stable permutation of the
    filtered entities.
  - For each kind of object, an entry is listed exactly when the filter admits it.
- **Enemy AI** (`enemyai.dfy`): the enemy phase, which is draining, poisoning, chasing and
  wandering.
- **Cycle manager** (`cycle.dfy`, `phases.dfy`, `decision.dfy`, `world.dfy`): one simulation
  cycle. Its phases are:
  1. ask every ready amoeba for an action, with retry and validation;
  2. execute the actions, a feed eating from the best food item on the spot;
  3. run the enemy phase;
  4. drain the amoebas that poison reaches;
  5. decay the food and poison items;
  6. remove the dead and the depleted;
  7. respawn items;
  8. update the statistics.

  Each phase is a method over the shared `World` object. Each is proved against a function on
  world values, and lemmas state what each phase keeps and changes.
- **LLM side** (`parser.dfy`, `llmclient.dfy`, `prompt.dfy`): extracting and validating the
  JSON action in a model reply, shaping the chat request (URL, reasoning-model handling,
  response schema), and building the prompt.
- **Store** (`store.dfy`): the persisted settings, with defaults and a save/load round trip,
  and the capped LLM log.
- **Scene** (`scene.dfy`): world generation (the centre amoeba, food, poison, and enemies kept
  away from the centre) and the start, pause and reset controls.

Collaborators outside the core are parameters of the model:

- an `Env` value for the distance function, the direction offsets and the death threshold;
- a `Runtime` value for the JavaScript built-ins;
- a reply oracle for the model endpoint;
- draw parameters for `Math.random`.

## Model

| member | source | states |
|---|---|---|
| Constants.CmToPx | src/game/constants.ts:88-90 | dividing the pixel result by the scale 1200 gives the centimetres back |
| Constants.PxToCm | src/game/constants.ts:92-94 | multiplying the centimetre result by the scale 1200 gives the pixels back |
| Constants.ConversionRoundTrip | src/game/constants.ts:88-94 | `pxToCm(cmToPx(x)) = x` and `cmToPx(pxToCm(x)) = x` over the reals |
| Constants.DerivedSizes | src/game/constants.ts:6-25 | radius 0.0125 cm = 15 px, diameter 30 px, a 6000 px world, vision 360 px (the comment says 120) and enemy vision 60 px |
| Constants.ConstantOrdering | src/game/constants.ts:28-29 | 0 < MIN_MOVE <= MAX_MOVE, MIN_ENERGY <= STARTING <= DIVISION <= MAX_ENERGY, half the division threshold is below the starting energy, and the food radius and energy ranges are non-empty |
| Constants.HexDirectionsTable | src/game/constants.ts:31-38 | six entries whose angles are 0, 60, ..., 300 |
| Rng.ToInt32 | src/game/rng.ts:23 | `x \| 0`: a signed 32-bit integer congruent to `x` modulo 2^32 |
| Rng.Mulberry32Word | src/game/rng.ts:10-15 | the mixed word, after the final `>>> 0`, is below 2^32 |
| Rng.Mulberry32 | src/game/rng.ts:10-16 | the result lies in [0, 1) |
| Rng.Mulberry32Periodic | src/game/rng.ts:11 | the result depends on its argument only modulo 2^32 |
| Rng.Draws | src/game/rng.ts:29-31 | the stream of `n` draws from a state has length `n` |
| Rng.DrawsAt | src/game/rng.ts:29-31 | draw `i` of the stream is `mulberry32` of the state advanced `i + 1` times |
| Rng.DrawsInUnitInterval | src/game/rng.ts:1-2 | every draw of a `mulberry32` stream lies in [0, 1) |
| Rng.DrawsSplit | src/game/rng.ts:29-31 | `m + n` draws are the first `m` draws followed by `n` draws from the state `m` further on |
| Rng.ActualSeed | src/game/rng.ts:22-23 | a non-zero seed is kept; seed 0 gives a signed 32-bit value |
| Rng.SameSeedSameDraws | src/game/rng.ts:22-26 | the stream of draws after seeding with a non-zero seed does not depend on the `Math.random()` value |
| Rng.SameSeedSameValues | src/game/rng.ts:3-5 | two generator objects seeded with the same non-zero seed return the same n values from n calls of `rng()`, the Mulberry32 stream of that seed |
| Rng.Generator.constructor | src/game/rng.ts:8 | the state starts at 0 and the draw function is `mulberry32` |
| Rng.Generator.Seed | src/game/rng.ts:22-26 | returns the seed `seedRng` settles on (the seed itself when non-zero) and sets the state to it |
| Rng.Generator.Next | src/game/rng.ts:29-31 | the state goes up by exactly one, the result is the draw at the new state, and it lies in [0, 1) |
| Text.NatToString | src/game/entities/Amoeba.ts:44 | the decimal rendering of a counter value: non-empty, all digits, one digit exactly below 10 |
| Text.NatToStringInjective | src/game/entities/Amoeba.ts:44 | different counter values render differently |
| Text.PrefixedNumberInjective | src/game/entities/Enemy.ts:32 | a fixed prefix followed by a number names that number uniquely |
| Text.AsciiLower | src/llm/LLMClient.ts:9 | lowers the letters A to Z and keeps every other character, so the length is kept (`toLowerCase` restricted to ASCII letters) |
| Text.AsciiLowerIdempotent | src/llm/LLMClient.ts:4 | lowering twice is lowering once |
| Text.Join | src/llm/PromptBuilder.ts:45 | `join` of no parts is empty; of one part is that part |
| Text.JoinAvoids | src/llm/PromptBuilder.ts:45 | a character found in no part and not in the separator is not in the join |
| Text.SplitJoin | src/llm/PromptBuilder.ts:45 | splitting the joined lines on the separator gives the lines back when no line holds it |
| Text.StripTrailing | src/llm/LLMClient.ts:36 | `replace(/\/+$/, '')`: a prefix of the input with no separator at its end, and everything cut off was the separator |
| Text.StripTrailingRepeat | src/llm/LLMClient.ts:36 | extra trailing slashes make no difference |
| Text.TrimSpaces | src/game/systems/CycleManager.ts:159 | `trim()`: the result neither starts nor ends with a space |
| Text.TrimSpacesSlice | src/game/systems/CycleManager.ts:159 | what `trim()` keeps is a slice of the text, and everything cut off before and after it is a space |
| Geometry.Clamp | src/game/entities/Amoeba.ts:175-176 | `Phaser.Math.Clamp`: the result lies in the range, and a value already in range is kept |
| Geometry.ClampToWorld | src/game/entities/Enemy.ts:121-122 | the clamped position lies in the world, and a position already in the world is kept |
| Geometry.ToCm | src/game/entities/Amoeba.ts:61-63 | `positionCm`: converting the result back to pixels gives the position |
| Geometry.Offset | src/game/systems/VisionSystem.ts:34 | the relative position: start plus offset is the target |
| Counters.Counter.constructor | src/game/entities/Amoeba.ts:24 | a module counter starts at 0 |
| Counters.Counter.Reset | src/game/entities/Amoeba.ts:26-28 | `resetAmoebaIds` sets the counter back to 0 |
| Amoebas.AmoebaId | src/game/entities/Amoeba.ts:44 | every id starts with `amoeba-` followed by at least one character |
| Amoebas.AmoebaIdInjective | src/game/entities/Amoeba.ts:24-44 | distinct counter values give distinct ids |
| Amoebas.View | src/game/entities/Amoeba.ts:61-72 | `getState()` keeps id, energy and alive, with the position in centimetres |
| Amoebas.EnergyAdded | src/game/entities/Amoeba.ts:241-243 | energy becomes `min(MAX_ENERGY, energy + amount)`, never above MAX_ENERGY; nothing else changes |
| Amoebas.CheckDeath | src/game/entities/Amoeba.ts:234-239 | below the threshold the energy becomes 0 and the amoeba dies; otherwise nothing changes |
| Amoebas.Damaged | src/game/entities/Amoeba.ts:229-239 | alive afterwards iff alive before and `energy - amount` is not below the threshold; the energy is that difference, or 0 on death; position, feeding and animation are kept |
| Amoebas.DivideParent | src/game/entities/Amoeba.ts:209-210 | the parent keeps exactly half of its energy, nothing else changes |
| Amoebas.DivideChild | src/game/entities/Amoeba.ts:212-225 | the child has half the energy, the next id, is alive and idle, and is clamped into the world |
| Amoebas.DivisionConservesEnergy | src/game/entities/Amoeba.ts:209-225 | parent's plus child's energy equals the energy before the division |
| Amoebas.DirectionOffset | src/game/entities/Amoeba.ts:168 | `DIRECTIONS[direction] ?? DIRECTIONS[0]`: the indexed entry when in range, else the first |
| Amoebas.MoveEnergy | src/game/entities/Amoeba.ts:178-181 | never below MIN_ENERGY, and never above the energy before a move of non-negative length |
| Amoebas.MoveDestination | src/game/entities/Amoeba.ts:168-176 | the destination lies in the world |
| Amoebas.MoveInDirection | src/game/entities/Amoeba.ts:167-199 | the energy pays for the distance to the clamped destination; below the threshold the amoeba dies with energy 0 and no animation starts; a survivor starts the animation to the destination; id, position and feeding are kept |
| Amoebas.MoveEnergyBounds | src/game/entities/Amoeba.ts:178-182 | a move leaves the energy between MIN_ENERGY and its value before |
| Amoebas.ActionApplied | src/game/entities/Amoeba.ts:141-165 | a dead amoeba is unchanged; feed only raises the feeding flag; divide and idle change nothing; move is `moveInDirection` |
| Amoebas.DeadIgnoresAction | src/game/entities/Amoeba.ts:142-145 | a dead amoeba is unchanged and its callback runs at once |
| Amoebas.TweenCompleted | src/game/entities/Amoeba.ts:195-197 | the animation ends at its destination; energy, alive and id are kept |
| Amoebas.Amoeba.constructor | src/game/entities/Amoeba.ts:42-45 | id `amoeba-N` from the counter, which goes up by one, the given or the starting energy, alive, not feeding, not moving |
| Amoebas.Amoeba.AddEnergy | src/game/entities/Amoeba.ts:241-243 | the new state is `EnergyAdded` of the old |
| Amoebas.Amoeba.TakeDamage | src/game/entities/Amoeba.ts:229-239 | the new state is `Damaged` of the old |
| Amoebas.Amoeba.Divide | src/game/entities/Amoeba.ts:202-227 | below the threshold: null and nothing changes; otherwise a fresh child numbered by the counter, parent and child as `DivideParent` and `DivideChild` say |
| Amoebas.Amoeba.ApplyAction | src/game/entities/Amoeba.ts:141-165 | the new state is `ActionApplied` of the old; says whether the callback runs at once |
| Amoebas.Amoeba.CompleteTween | src/game/entities/Amoeba.ts:195-197 | the new state is `TweenCompleted` of the old |
| Amoebas.Amoeba.EndFeeding | src/game/entities/Amoeba.ts:153-155 | only the feeding flag is cleared |
| Enemies.EnemyId | src/game/entities/Enemy.ts:32 | every id starts with `enemy-` followed by at least one character |
| Enemies.MaxStepIs150 | src/game/entities/Enemy.ts:115 | the longest chase step is 5 body lengths, that is 150 px |
| Enemies.StartMove | src/game/entities/Enemy.ts:124-140 | pays for the distance to the destination as an amoeba does (`Amoebas.MoveEnergy`) and starts the animation there; id, position, alive and feeding are kept |
| Enemies.ChaseTarget | src/game/entities/Enemy.ts:115-120 | a target within one step is the destination itself |
| Enemies.MovedToward | src/game/entities/Enemy.ts:101-141 | no change for a dead or moving enemy or a target closer than 1 px; otherwise the step towards the target, clamped into the world, is started; a move never kills |
| Enemies.ChaseReachesCloseTarget | src/game/entities/Enemy.ts:115-122 | a target in the world within 150 px is reached exactly |
| Enemies.Wandered | src/game/entities/Enemy.ts:143-175 | no change for a dead or moving enemy; otherwise an animation starts to the world-clamped point one to three body lengths along the drawn angle, paid for by the distance actually travelled and floored at MIN_ENERGY; alive and position are kept |
| Enemies.Damaged | src/game/entities/Enemy.ts:177-183 | the energy is `energy - amount`, or MIN_ENERGY when that is at or below MIN_ENERGY; alive afterwards iff alive before and above MIN_ENERGY |
| Enemies.TweenCompleted | src/game/entities/Enemy.ts:136-139 | the animation ends at its destination; energy, alive and id are kept |
| Enemies.Enemy.constructor | src/game/entities/Enemy.ts:30-33 | id `enemy-N` from the counter, which goes up by one, the starting energy, alive, not moving |
| Enemies.Enemy.MoveToward | src/game/entities/Enemy.ts:101-141 | the new state is `MovedToward` of the old |
| Enemies.Enemy.Wander | src/game/entities/Enemy.ts:143-175 | the new state is `Wandered` of the old |
| Enemies.Enemy.TakeDamage | src/game/entities/Enemy.ts:177-183 | the new state is `Damaged` of the old |
| Enemies.Enemy.SetFeeding | src/game/systems/EnemyAI.ts:41 | only the feeding flag changes, to the given value |
| Enemies.Enemy.CompleteTween | src/game/entities/Enemy.ts:136-139 | the new state is `TweenCompleted` of the old |
| EnemyAI.DrainedOne | src/game/systems/EnemyAI.ts:51-59 | a living amoeba within two radii of the enemy takes ENEMY_DRAIN_PER_CYCLE damage; any other amoeba is unchanged |
| EnemyAI.EnemyStep | src/game/systems/EnemyAI.ts:20-42 | one enemy's turn keeps the number of amoebas |
| EnemyAI.EnemyStepSpec | src/game/systems/EnemyAI.ts:20-42 | a dead or moving enemy is skipped; poison hurts once before the move, and an enemy it kills neither moves nor drains; a survivor chases the nearest prey or wanders; the drain is centred on the position before the move, and `feeding` says whether anything was drained |
| EnemyAI.EnemyStepKeepsPosition | src/game/systems/EnemyAI.ts:29-41 | a turn never moves the enemy itself and kills it only through poison |
| EnemyAI.EnemyPhase | src/game/systems/EnemyAI.ts:20-42 | after `n` turns the lists keep their lengths and the enemies from `n` on are untouched |
| EnemyAI.EnemyPhaseOnlyHurts | src/game/systems/EnemyAI.ts:45-62 | the phase never revives an amoeba, never adds energy to it, and never changes its id or position |
| EnemyAI.ApplyDrainToNearbyAmoebas | src/game/systems/EnemyAI.ts:45-62 | every amoeba becomes `DrainedOne` of itself, and the result holds iff at least one amoeba was drained |
| EnemyAI.MoveTurn | src/game/systems/EnemyAI.ts:35-39 | the enemy chases the nearest prey if there is one, and wanders otherwise |
| EnemyAI.PoisonAndMove | src/game/systems/EnemyAI.ts:23-39 | poison damage first, then the move only if the enemy is still alive |
| EnemyAI.EnemyTurn | src/game/systems/EnemyAI.ts:21-41 | the enemy and the amoebas become what `EnemyStep` says |
| EnemyAI.Update | src/game/systems/EnemyAI.ts:15-43 | the enemies and the amoebas become `EnemyPhase` over all enemies, in list order |
| EnemyAI.Turn | src/game/systems/EnemyAI.ts:20-42 | turn `i` changes enemy `i` and the amoebas as `EnemyStep` says, and no other enemy |
| Resources.Intensity | src/game/entities/FoodItem.ts:56-62 | the intensity lies in [0, 1]; it is 1 up to the radius and 0 beyond twice the radius |
| Resources.IntensityNonIncreasing | src/game/entities/FoodItem.ts:56-62 | the intensity never rises as the distance grows |
| Resources.IntensityPositiveIff | src/game/entities/PoisonItem.ts:54-64 | the intensity is positive exactly up to the radius or strictly inside twice the radius |
| Resources.Decayed | src/game/entities/FoodItem.ts:80-83 | decay removes exactly 0.1, with no floor |
| Resources.EnergyAtDistance | src/game/entities/FoodItem.ts:64-66 | between 0 and the remaining energy (when that is non-negative); all of it up to the radius, none beyond the halo |
| Resources.CanFeedAtBounds | src/game/entities/FoodItem.ts:68-70 | `canFeedAt` needs at least one unit left and a distance within the halo |
| Resources.Consumed | src/game/entities/FoodItem.ts:72-78 | nothing from an item with no energy; otherwise `min(1, remaining)`, which leaves a non-negative rest |
| Resources.Food.constructor | src/game/entities/FoodItem.ts:22-35 | a new item is full: `maxEnergy` and `remainingEnergy` are both the given energy |
| Resources.Food.ConsumeEnergy | src/game/entities/FoodItem.ts:72-78 | takes exactly `Consumed` of the energy before, subtracts it, and keeps the remaining energy at most `maxEnergy` |
| Resources.Food.Decay | src/game/entities/FoodItem.ts:80-83 | the remaining energy is `Decayed` of the old, still at most `maxEnergy` |
| Resources.InRangeIff | src/game/entities/PoisonItem.ts:54-64 | for a positive radius, `isInRange(d)` holds iff `d < 2r` |
| Resources.InRangeIgnoresEnergy | src/game/entities/PoisonItem.ts:54-64 | the reach does not depend on the energy left |
| Resources.Poison.constructor | src/game/entities/PoisonItem.ts:22-34 | the poison holds the given position, radius and energy |
| Resources.Poison.Decay | src/game/entities/PoisonItem.ts:41-44 | the remaining energy is `Decayed` of the old |
| Vision.FoodEntry | src/game/systems/VisionSystem.ts:28-41 | a food entry has kind food, the distance to the item, its offset from the viewer, and the details radius, energy left and `getEnergyAtDistance(distance)` |
| Vision.PoisonEntry | src/game/systems/VisionSystem.ts:47-58 | a poison entry has kind poison, the distance, the offset and only the radius as detail |
| Vision.EnemyEntry | src/game/systems/VisionSystem.ts:64-71 | an enemy entry has kind enemy, the distance, the offset and no details |
| Vision.OtherEntry | src/game/systems/VisionSystem.ts:77-87 | an amoeba entry has kind amoeba, the distance, the offset and the other's energy as detail |
| Vision.SortSortedPermutation | src/game/systems/VisionSystem.ts:91 | the sort yields entries in non-decreasing distance, a permutation of its input |
| Vision.SortStable | src/game/systems/VisionSystem.ts:91 | the sort is stable: the entries at any one distance keep their order |
| Vision.SurroundingsSortedPermutation | src/game/systems/VisionSystem.ts:24-92 | the result is sorted by distance and holds exactly the collected food, poison, enemy and amoeba entries |
| Vision.InSurroundings | src/game/systems/VisionSystem.ts:24-92 | an entry is in the result iff it is among the food, poison, enemy or amoeba entries |
| Vision.FoodListedIff | src/game/systems/VisionSystem.ts:26-43 | a food is listed iff it is not depleted and within vision radius plus twice its radius; every food entry comes from such a food |
| Vision.PoisonListedIff | src/game/systems/VisionSystem.ts:45-60 | a poison is listed iff it is not depleted and within vision radius plus twice its radius; every poison entry comes from such a poison |
| Vision.EnemyListedIff | src/game/systems/VisionSystem.ts:62-73 | an enemy is listed iff it is alive and within the vision radius; every enemy entry comes from such an enemy |
| Vision.OtherListedIff | src/game/systems/VisionSystem.ts:75-89 | another amoeba is listed iff it is alive, has a different id and is within the vision radius; every amoeba entry comes from one |
| Vision.GetSurroundings | src/game/systems/VisionSystem.ts:15-93 | the result is `Surroundings` of the lists' data |
| Vision.ScanFoods | src/game/systems/VisionSystem.ts:26-43 | the loop collects exactly the visible food entries, in list order |
| Vision.ScanPoisons | src/game/systems/VisionSystem.ts:45-60 | the loop collects exactly the visible poison entries, in list order |
| Vision.ScanEnemies | src/game/systems/VisionSystem.ts:62-73 | the loop collects exactly the visible enemy entries, in list order |
| Vision.ScanOthers | src/game/systems/VisionSystem.ts:75-89 | the loop collects exactly the visible amoeba entries, in list order, skipping the viewer |
| Vision.NearestAmoeba | src/game/systems/VisionSystem.ts:101-111 | the scan's choice, when there is one, indexes the amoeba list |
| Vision.NearestAmoebaSpec | src/game/systems/VisionSystem.ts:101-111 | nothing is found iff no living amoeba is within ENEMY_VISION_CM; otherwise the found amoeba is such prey, at minimum distance, and every earlier prey is strictly farther |
| Vision.GetEnemySurroundings | src/game/systems/VisionSystem.ts:95-124 | returns the nearest prey of `NearestAmoeba` and whether some non-depleted poison is in range |
| Vision.ScanEnemyPrey | src/game/systems/VisionSystem.ts:101-111 | the loop's result is `NearestAmoeba` |
| Vision.ScanPoisonReach | src/game/systems/VisionSystem.ts:113-121 | the loop, stopping at the first hit, holds iff some non-depleted poison has the enemy in range |
| Decisions.ValidateAction | src/game/systems/CycleManager.ts:204-227 | a reason is returned iff the action is a feed with no non-depleted food within twice its radius giving at least one unit, or a divide below the division threshold; the reasons are the two fixed texts |
| Decisions.AcceptedActionsSucceed | src/game/systems/CycleManager.ts:204-227 | an accepted feed always finds a food item to eat from, and an accepted divide can divide |
| Decisions.FormatActionDetails | src/game/systems/CycleManager.ts:229-238 | details exist iff the action is a move, and read `dir <direction>, dist <distance>` |
| Decisions.AcceptedDetails | src/game/systems/CycleManager.ts:154-159 | the first attempt logs the details as they are; an accepted retry of a move logs `dir <d>, dist <n> (retry <attempt>)`, and of any other action `(retry <attempt>)` alone |
| Decisions.Try | src/game/systems/CycleManager.ts:149-152 | one attempt: an accepted action is never idle and passes `validateAction`; a refused one carries the reason `validateAction` gives |
| Decisions.DecideFromSpec | src/game/systems/CycleManager.ts:148-189 | from any attempt: at most MAX_RETRIES + 1 calls; one entry per call, plus a give-up entry when giving up; all for this cycle and amoeba; every entry but the last is a rejection; a non-idle result passes the rules and is logged under its tag; giving up comes only after all MAX_RETRIES + 1 calls were refused; an idle result without giving up ends with an error entry |
| Decisions.DecideSpec | src/game/systems/CycleManager.ts:127-201 | the decision `getAmoebaAction` makes has the shape of `DecideFromSpec` from attempt 0 |
| Decisions.DecideFromPrompts | src/game/systems/CycleManager.ts:160-179 | every logged conversation starts with the initial messages; each earlier refusal adds its reply as the assistant, then a user message, except after the last retry |
| Decisions.DecidePrompts | src/game/systems/CycleManager.ts:148-189 | the `k`-th logged conversation holds the initial messages plus two for each of the first `min(k, MAX_RETRIES)` refusals |
| Decisions.AppendAllSpec | src/stores/gameStore.ts:93-98 | adding entries one by one keeps the cap of 200, and the log ends with the added entries whenever they fit under it |
| Decisions.AppendAllConcat | src/stores/gameStore.ts:93-98 | adding two runs of entries is adding their concatenation |
| Phases.ReadyIndices | src/game/systems/CycleManager.ts:97 | every index the cycle asks for names an amoeba that is alive and not moving |
| Phases.ReadyIndicesIncreasing | src/game/systems/CycleManager.ts:97 | the asked amoebas keep their order in the amoeba list, each at most once |
| Phases.ReadyIndicesSpec | src/game/systems/CycleManager.ts:97 | an amoeba is asked for a decision exactly when it is alive and not moving |
| Phases.BestFoodSpec | src/game/systems/CycleManager.ts:259-278 | the chosen food can feed the amoeba (not depleted, centre in the halo, at least 1 unit there), offers the most of all such items and strictly more than every earlier one; none is chosen exactly when no item qualifies |
| Phases.FedSpec | src/game/systems/CycleManager.ts:259-283 | feeding changes nothing when no item qualifies; otherwise the chosen item holds at least 1 unit, loses exactly 1, the amoeba gains 1 up to the cap, and nothing else changes |
| Phases.FeedCheckMatchesFeeding | src/game/systems/CycleManager.ts:263-277 | the feed check of validation passes exactly when feeding would find an item |
| Phases.Executed | src/game/systems/CycleManager.ts:240-257 | executing one action leaves enemies, poisons, the number of food items and every other amoeba as they were, adds at most one amoeba, and adds one only for a division the amoeba can afford, as its child |
| Phases.ActionsPhase | src/game/systems/CycleManager.ts:104-115 | the action phase keeps enemies, poisons and the number of food items and never removes an amoeba |
| Phases.ActionsPhaseSpec | src/game/systems/CycleManager.ts:104-115 | only the asked amoebas change during the action phase, and every amoeba it adds is a newborn child: alive, not moving, not feeding |
| Phases.Poisoned | src/game/systems/CycleManager.ts:306-313 | the poison drain changes an amoeba's energy and life only, never its id, position, tween or feeding flag |
| Phases.PoisonedSpec | src/game/systems/CycleManager.ts:302-315 | an amoeba survives the drain exactly when it was alive and, if n poisons reach it, still has the death threshold after losing n units; a survivor has lost exactly n units |
| Phases.DecayPhaseSpec | src/game/systems/CycleManager.ts:293-300 | decay touches only the items, each by itself, and keeps every list's length |
| Phases.DecaySpec | src/game/systems/CycleManager.ts:293-300 | decay never raises what an item holds: an item not depleted loses exactly the decay amount, a depleted one is unchanged, and food keeps its remaining energy within its maximum |
| Phases.RemovedSpec | src/game/systems/CycleManager.ts:317-340 | after the removal no dead amoeba or enemy and no depleted item is left, and every living or not depleted one is still there |
| Phases.RespawnSpec | src/game/systems/CycleManager.ts:342-352 | one food item is added exactly on every fifth cycle with fewer than 50 items and one poison item exactly on every tenth cycle with fewer than 15; a respawn never takes a count past its initial number and changes nothing else |
| Phases.FindAlive | src/game/systems/CycleManager.ts:382 | the result is the first living amoeba with the id, or none when there is no such amoeba |
| Phases.CycleStatsSpec | src/game/systems/CycleManager.ts:374-387 | the counts are the living amoebas and enemies, the food items not depleted and all poison items; the energy shown is the selected living amoeba's (0 when it is gone), else the first amoeba's, else the old one; nothing else changes |
| Phases.CountsAfterRemoval | src/game/systems/CycleManager.ts:317-340 | once the dead and depleted are removed, the counts are the list lengths |
| Phases.CyclePhasesInOrder | src/game/systems/CycleManager.ts:117-121 | the later phases run exactly in the order enemy moves, poison drain, decay, removal, respawn |
| Phases.CycleWorldClean | src/game/systems/CycleManager.ts:104-121 | at the end of a cycle every amoeba and enemy is alive and no item is depleted |
| ResponseParser.DirectionIndex | src/llm/ResponseParser.ts:4-13 | a key has an index exactly when it is one of the eight direction keys, and the index is that key's position in the table |
| ResponseParser.DirectionTable | src/llm/ResponseParser.ts:4-13 | the table has eight keys and each maps to its own position, 0 through 7 |
| ResponseParser.FirstIndexOf | src/llm/ResponseParser.ts:37 | the result is the first position at or after the start holding the character, or none when no such position exists |
| ResponseParser.ExtractJson | src/llm/ResponseParser.ts:36-39 | no text is cut exactly when no '{' is followed by a '}'; otherwise the text runs from the first '{' to the first '}' after it |
| ResponseParser.ValidateMove | src/llm/ResponseParser.ts:41-62 | a move comes out exactly for an object tagged "move" whose lowercased direction is a table key and whose distance is finite and within [0.5, 5] body lengths; it carries that key's index and the parsed distance |
| ResponseParser.ValidateTags | src/llm/ResponseParser.ts:42-69 | "feed" and "divide" give their actions whatever else the object holds; a non-object or any other tag gives idle |
| ResponseParser.Parse | src/llm/ResponseParser.ts:29-33 | a successful parse never yields idle |
| ResponseParser.ParseOutcomes | src/llm/ResponseParser.ts:16-34 | no brace text, text JSON.parse rejects, and an unusable object are each their own error; otherwise the result is the validated action |
| ResponseParser.DirectionLookupAsWritten | src/llm/ResponseParser.ts:4-13 | the plain-object lookup finds something exactly for the eight keys and the two lower-case inherited names "constructor" and "__proto__" |
| ResponseParser.ConstructorIsLowerCase | src/llm/ResponseParser.ts:48 | lowercasing leaves "constructor" unchanged |
| ResponseParser.PrototypeMoveFields | src/llm/ResponseParser.ts:46-49 | the object tags a move, its direction key is "constructor" and its distance is 2 |
| ResponseParser.PrototypeDirectionAccepted | src/llm/ResponseParser.ts:48-55 | as written, a move toward "constructor" passes the move test with an inherited member instead of an index; the own-key model rejects it |
| ResponseParser.OwnLookupAgrees | src/llm/ResponseParser.ts:48-61 | away from the two inherited names, the test as written and the own-key lookup accept the same moves with the same index |
| LLMClient.MatchesFrom | src/llm/LLMClient.ts:3-11 | the scan finds a match exactly when one of the patterns matches at some position from the start point on |
| LLMClient.IsReasoningModel | src/llm/LLMClient.ts:8-11 | a model is a reasoning model exactly when one of the three patterns matches somewhere in its lower-case name |
| LLMClient.ReasoningIgnoresCase | src/llm/LLMClient.ts:9 | a name and its lower case are classified alike |
| LLMClient.GptOssMatches | src/llm/LLMClient.ts:5 | every lower-case name "gpt-oss" followed by a non-word character or nothing is a reasoning model |
| LLMClient.ChatUrl | src/llm/LLMClient.ts:36 | the endpoint is the configured URL without its whole run of trailing slashes, followed by "/chat/completions" |
| LLMClient.ChatUrlIgnoresTrailingSlashes | src/llm/LLMClient.ts:36 | any number of trailing slashes gives the same endpoint |
| LLMClient.SchemaDiagonalsRejected | src/llm/LLMClient.ts:22 | of the six directions the schema offers only "right" and "left" are keys the parser knows |
| LLMClient.RequestFor | src/llm/LLMClient.ts:36-56 | the request goes to the chat endpoint of the API URL, with `Bearer <key>` as its Authorization header and the body of `RequestBodyFor` |
| LLMClient.RequestBodyFor | src/llm/LLMClient.ts:38-47 | the body carries the model, the messages and the schema; a reasoning model gets no temperature and max_completion_tokens, every other model the temperature and max_tokens, never both token fields |
| LLMClient.ReplyOutcome | src/llm/LLMClient.ts:58-69 | a reply that is not ok is an API error with its status and text; the call succeeds exactly when the reply is ok and its first choice has a message, with that content; a body that cannot be read throws the runtime's own error, an empty choice list "LLM returned no choices" |
| LLMClient.Chat | src/llm/LLMClient.ts:32-70 | the reply is the one to the request for the chat endpoint with the bearer key and the settings' body; the chat fails with the API error exactly when that reply is not ok, and succeeds exactly when the reply has a first choice with content, returning it |
| PromptBuilder.UserLines | src/llm/PromptBuilder.ts:20-43 | the message has the three head lines, then either the single "nothing detected" line, or the count header and one line per visible object in order |
| PromptBuilder.BuildUserMessage | src/llm/PromptBuilder.ts:16-46 | the user message is its lines joined with newlines |
| PromptBuilder.DescribeObjects | src/llm/PromptBuilder.ts:30-42 | the loop produces one line per visible object, in input order |
| PromptBuilder.BuildMessages | src/llm/PromptBuilder.ts:4-14 | the messages are exactly two: the system prompt verbatim, then the user message |
| PromptBuilder.ObjectLineOnOneLine | src/llm/PromptBuilder.ts:31-41 | an object's line holds no line break when its detail keys and string values hold none |
| PromptBuilder.HeadLinesOnOneLine | src/llm/PromptBuilder.ts:22-24 | the three head lines hold no line break |
| PromptBuilder.ObjectLinesOnOneLine | src/llm/PromptBuilder.ts:30-42 | no object line holds a line break |
| PromptBuilder.UserMessageLines | src/llm/PromptBuilder.ts:20-45 | the user message splits back at newlines into exactly its lines: 4 when nothing is seen, otherwise 4 plus one per object |
| Store.LoadSettings | src/stores/gameStore.ts:30-44 | nothing stored, an empty text or a text JSON.parse rejects gives the default settings |
| Store.MergeMissing | src/stores/gameStore.ts:36-37 | a missing or empty stored section keeps every default |
| Store.LLMTextFieldsLoadBack | src/stores/gameStore.ts:36 | a saved LLM section gives back its URL and key |
| Store.LLMModelFieldsLoadBack | src/stores/gameStore.ts:36 | a saved LLM section gives back its model and temperature |
| Store.LLMPromptFieldsLoadBack | src/stores/gameStore.ts:36 | a saved LLM section gives back its token limit and system prompt |
| Store.LLMSectionLoadsBack | src/stores/gameStore.ts:36 | a saved LLM section merged over the defaults is the saved settings |
| Store.GameSectionLoadsBack | src/stores/gameStore.ts:37 | a saved game section merged over the defaults is the saved settings |
| Store.SavedSettingsLoadBack | src/stores/gameStore.ts:30-44 | settings the watcher saved load back unchanged |
| Store.LogAppendedSpec | src/stores/gameStore.ts:93-98 | the new entry always ends the log; below the cap nothing is removed; at the cap exactly the oldest entry goes; the kept entries keep their order and the cap of 200 holds |
| Store.GameStore.constructor | src/stores/gameStore.ts:65-91 | the store starts with the loaded settings, the initial statistics, no selection and an empty log |
| Store.GameStore.AddLogEntry | src/stores/gameStore.ts:93-98 | the log becomes the appended log and keeps the cap; nothing else changes |
| Store.GameStore.ClearLog | src/stores/gameStore.ts:100-102 | the log is emptied; nothing else changes |
| Store.GameStore.ResetDefaults | src/stores/gameStore.ts:104-107 | every LLM and game setting returns to its default; nothing else changes |
| Store.GameStore.ResetSystemPrompt | src/stores/gameStore.ts:109-111 | only the system prompt returns to its default |
| Worlds.World.constructor | src/game/scenes/GameScene.ts:34-37 | the world starts with empty lists and two distinct fresh id counters at 0 |
| Worlds.World.AddAmoeba | src/game/scenes/GameScene.ts:201 | the amoeba is appended and nothing else changes; the list stays free of duplicates |
| Worlds.World.AddEnemy | src/game/scenes/GameScene.ts:236 | the enemy is appended and nothing else changes |
| Worlds.World.AddFood | src/game/scenes/GameScene.ts:211 | the food item is appended and nothing else changes |
| Worlds.World.AddPoison | src/game/scenes/GameScene.ts:222 | the poison item is appended and nothing else changes |
| Worlds.World.Clear | src/game/scenes/GameScene.ts:152-155 | every list is emptied and the snapshot is the empty world |
| Worlds.KeptIndicesIncreasing | src/game/systems/CycleManager.ts:317-340 | the kept positions come in increasing order |
| Worlds.KeptIndicesComplete | src/game/systems/CycleManager.ts:317-340 | every unflagged position is kept |
| Worlds.KeptSpec | src/game/systems/CycleManager.ts:317-340 | after the removal every entry left was unflagged, every unflagged entry is left, the survivors keep their order, and no object is duplicated |
| Worlds.KeptExactly | src/game/systems/CycleManager.ts:317-340 | when the flags mark exactly the entries failing a test, what is left is exactly the entries passing it |
| Worlds.KeptNone | src/game/systems/CycleManager.ts:317-340 | with no flag set nothing is removed |
| Worlds.SpliceOut | src/game/systems/CycleManager.ts:318-322 | the backward splice loop removes exactly the flagged entries and keeps the rest in order |
| Worlds.PlaceFood | src/game/systems/CycleManager.ts:354-362 | the new food item is the one the four draws determine |
| Worlds.PlacePoison | src/game/systems/CycleManager.ts:364-372 | the new poison item is the one the four draws determine |
| Worlds.SpawnEnergyBounds | src/game/systems/CycleManager.ts:358-368 | a draw in [0, 1) gives a whole energy between the minimum and one below the maximum |
| Worlds.SpawnedBounds | src/game/systems/CycleManager.ts:354-372 | for draws in [0, 1) a spawned item lies in the world, its radius is within the bounds, its energy is a whole number in [2, 199], and a food item starts full and not depleted |
| Cycles.PromptFor | src/game/systems/CycleManager.ts:134-146 | an amoeba's prompt is two messages: the system prompt verbatim, then a user message |
| Cycles.DecisionOfDecide | src/game/systems/CycleManager.ts:129-202 | with the program's own attempts, a ready amoeba's decision is `getAmoebaAction`'s decision on its prompt |
| Cycles.CycleDecisions | src/game/systems/CycleManager.ts:97-102 | a cycle makes one decision per ready amoeba |
| Cycles.Recorded | src/game/systems/CycleManager.ts:99-115 | one more decision adds its action to the actions and its entries to the log entries |
| Cycles.EntriesOfBounds | src/game/systems/CycleManager.ts:148-201 | a cycle logs between one and MAX_RETRIES + 2 entries per asked amoeba |
| Cycles.PendingRefused | src/game/systems/CycleManager.ts:166-179 | a refused attempt is logged and the loop goes on with the reply and the reason appended to the conversation |
| Cycles.PendingSettled | src/game/systems/CycleManager.ts:150-201 | an attempt that is not refused ends the decision with its own entry: the action when accepted, idle on a failure |
| Cycles.PendingGaveUp | src/game/systems/CycleManager.ts:182-189 | with the retries used up the decision is idle and ends with the give-up entry |
| Cycles.CycleManager.constructor | src/game/systems/CycleManager.ts:46-62 | the manager shares the given world and store and starts stopped with no timer |
| Cycles.CycleManager.Start | src/game/systems/CycleManager.ts:64-68 | after start the manager is cycling; a second start changes no timer, a first one schedules a timer with the configured interval |
| Cycles.CycleManager.Stop | src/game/systems/CycleManager.ts:70-76 | after stop the manager is not cycling and no timer is pending |
| Cycles.CycleManager.ScheduleNextCycle | src/game/systems/CycleManager.ts:82-88 | while cycling a timer with the configured interval is pending; otherwise nothing changes; the world and the store are untouched |
| Cycles.CycleManager.GetAmoebaAction | src/game/systems/CycleManager.ts:129-202 | the action is the amoeba's decision for the world as it stands, its entries are appended to the log, and nothing else in the store changes |
| Cycles.CycleManager.Prompt | src/game/systems/CycleManager.ts:134-146 | the messages are the prompt built from the amoeba's surroundings in the current world |
| Cycles.CycleManager.RequestDecisions | src/game/systems/CycleManager.ts:97-102 | every ready amoeba is asked in list order: the actions are the cycle's decisions' actions and the log gains their entries; the world is untouched |
| Cycles.CycleManager.Converse | src/game/systems/CycleManager.ts:148-189 | the retry loop yields the decision's action and appends exactly its entries to the log |
| Cycles.CycleManager.GiveUp | src/game/systems/CycleManager.ts:182-189 | giving up logs the give-up entry and the action stays idle |
| Cycles.CycleManager.Round | src/game/systems/CycleManager.ts:149-179 | one attempt is made and logged; a refusal continues with the answered conversation, anything else settles the decision |
| Cycles.CycleManager.ReadyAmoebas | src/game/systems/CycleManager.ts:97 | the ready amoebas are exactly those alive and not moving, in list order |
| Cycles.CycleManager.ApplyActions | src/game/systems/CycleManager.ts:104-115 | the loop moves the world exactly as the action phase; enemies, poisons and the food list are kept, and amoebas are only appended |
| Cycles.CycleManager.ExecuteAction | src/game/systems/CycleManager.ts:240-257 | executing one action moves the world exactly as `Phases.Executed` |
| Cycles.CycleManager.HandleFeeding | src/game/systems/CycleManager.ts:259-283 | feeding changes the amoeba and the food items exactly as `Phases.Fed` |
| Cycles.CycleManager.ChooseFood | src/game/systems/CycleManager.ts:260-278 | the scan picks the item `Phases.BestFood` picks, or none |
| Cycles.CycleManager.HandleDivision | src/game/systems/CycleManager.ts:285-291 | a division moves the world exactly as `Phases.Divided`: a halved parent and an appended child, when the amoeba can divide |
| Cycles.CycleManager.Split | src/game/entities/Amoeba.ts:206-227 | a division that can happen yields a fresh child with the next id and halves the parent; otherwise there is no child and nothing changes |
| Cycles.CycleManager.ApplyPassiveEffects | src/game/systems/CycleManager.ts:302-315 | the amoebas become the drained amoebas of `Phases.PassivePhase` |
| Cycles.CycleManager.Drain | src/game/systems/CycleManager.ts:304-313 | a living amoeba becomes `Phases.Poisoned` of itself; a dead one is unchanged |
| Cycles.CycleManager.ApplyDecay | src/game/systems/CycleManager.ts:293-300 | the world becomes `Phases.DecayPhase` of itself |
| Cycles.CycleManager.DecayFoods | src/game/systems/CycleManager.ts:294-296 | every food item is decayed once if not depleted; nothing else changes |
| Cycles.CycleManager.DecayPoisons | src/game/systems/CycleManager.ts:297-299 | every poison item is decayed once if not depleted; nothing else changes |
| Cycles.CycleManager.RemoveDeadEntities | src/game/systems/CycleManager.ts:317-340 | the world becomes `Phases.Removed` of itself |
| Cycles.CycleManager.RemoveAmoebas | src/game/systems/CycleManager.ts:318-322 | the dead amoebas leave the list, the rest keep their order |
| Cycles.CycleManager.RemoveEnemies | src/game/systems/CycleManager.ts:323-327 | the dead enemies leave the list, the rest keep their order |
| Cycles.CycleManager.RemoveFoods | src/game/systems/CycleManager.ts:328-333 | the depleted food items leave the list, the rest keep their order |
| Cycles.CycleManager.RemovePoisons | src/game/systems/CycleManager.ts:334-339 | the depleted poison items leave the list, the rest keep their order |
| Cycles.CycleManager.RespawnItems | src/game/systems/CycleManager.ts:342-352 | the world becomes `Phases.Respawned` of itself for the store's cycle number |
| Cycles.CycleManager.SpawnRandomFood | src/game/systems/CycleManager.ts:354-362 | the food item the four draws determine is appended; nothing else changes |
| Cycles.CycleManager.SpawnRandomPoison | src/game/systems/CycleManager.ts:364-372 | the poison item the four draws determine is appended; nothing else changes |
| Cycles.CycleManager.UpdateStats | src/game/systems/CycleManager.ts:374-387 | the statistics become `Phases.CycleStats` of the world; the world and the rest of the store are untouched |
| Cycles.CycleManager.WorldPhases | src/game/systems/CycleManager.ts:104-121 | after the decisions the world moves exactly as `Phases.CycleWorld` and the store is untouched |
| Cycles.CycleManager.Aftermath | src/game/systems/CycleManager.ts:117-121 | the later phases run in the order of `Phases.CYCLE_PHASES` |
| Cycles.CycleManager.Hunt | src/game/systems/EnemyAI.ts:15-43 | the enemy update moves the world exactly as `Phases.Hunted` |
| Cycles.CycleManager.Tick | src/game/systems/CycleManager.ts:93 | the cycle number goes up by one and nothing else changes |
| Cycles.CycleManager.RunCycle | src/game/systems/CycleManager.ts:90-125 | a cycle does nothing unless the manager is cycling; otherwise the cycle number goes up, the world, the statistics and the log become what the cycle's decisions and phases give, and the next cycle is scheduled |
| Scenes.Centre | src/game/scenes/GameScene.ts:198-199 | the first amoeba's position, the world centre, lies inside the world |
| Scenes.FourDraws | src/game/scenes/GameScene.ts:204-220 | the four draws of one placement lie in [0, 1) whenever the generator's draws do |
| Scenes.InitialFoods | src/game/scenes/GameScene.ts:203-212 | the food loop places exactly `n` items |
| Scenes.InitialPoisons | src/game/scenes/GameScene.ts:214-223 | the poison loop places exactly `n` items |
| Scenes.InitialFoodsSnoc | src/game/scenes/GameScene.ts:203-212 | one more turn of the food loop appends the item built from the next four draws |
| Scenes.InitialPoisonsSnoc | src/game/scenes/GameScene.ts:214-223 | one more turn of the poison loop appends the item built from the next four draws |
| Scenes.InitialEnemiesStuck | src/game/scenes/GameScene.ts:225-237 | once one enemy's placement runs out of tries, the whole enemy loop does |
| Scenes.InitialEnemiesStep | src/game/scenes/GameScene.ts:225-237 | one more turn of the enemy loop either places the next enemy, numbered in order, at its accepted spot, or runs out of tries |
| Scenes.InitialFoodsFromStream | src/game/scenes/GameScene.ts:203-212 | food item `k` is built from draws 4k to 4k + 3 of the generator's stream, in the order x, y, radius, energy |
| Scenes.InitialPoisonsFromStream | src/game/scenes/GameScene.ts:214-223 | poison item `k` is built from draws 4k to 4k + 3 of the stream |
| Scenes.FourFromStream | src/game/rng.ts:29-31 | the four draws of placement `k` are entries 4k to 4k + 3 of the stream |
| Scenes.InitialFoodsPlaced | src/game/scenes/GameScene.ts:203-212 | every generated food item lies in the world, has a radius in range and a whole energy in [2, 199], and starts full |
| Scenes.InitialPoisonsPlaced | src/game/scenes/GameScene.ts:214-223 | every generated poison item lies in the world with a radius in range and a whole energy in [2, 199] |
| Scenes.EnemySpotSpec | src/game/scenes/GameScene.ts:227-234 | a do-while that ends has taken at least one pair of draws and lands inside the world, at least the minimum spawn distance from the centre |
| Scenes.InitialEnemiesPlaced | src/game/scenes/GameScene.ts:225-237 | every generated enemy is numbered in order, alive and idle, inside the world and away from the centre |
| Scenes.PlacedEnemyValuePlaced | src/game/scenes/GameScene.ts:235 | an enemy built at an accepted spot is placed as generation promises |
| Scenes.InitialEntitiesSpec | src/game/scenes/GameScene.ts:195-238 | generation appends one amoeba at the centre with a fresh number, then 50 food items, 15 poison items and 10 enemies, each placed as promised; what was in the world stays in front |
| Scenes.KeptFirst | src/game/scenes/GameScene.ts:241-249 | the first living amoeba is the first entry of the living list |
| Scenes.SceneStatsSpec | src/game/scenes/GameScene.ts:240-251 | the scene counts exactly as the cycle manager does, lists every living amoeba and nothing else, shows the first living amoeba's energy or keeps the old one when none lives, and changes nothing else |
| Scenes.ResetStatsSpec | src/game/scenes/GameScene.ts:137-166 | after a reset the statistics show one amoeba with the starting energy, every generated item and enemy, a stopped game at cycle 0 and no tokens |
| Scenes.GameScene.constructor | src/game/scenes/GameScene.ts:34-58 | the scene starts with an empty world, a Mulberry32 generator and a stopped cycle manager over the same world and store |
| Scenes.GameScene.DrawFour | src/game/scenes/GameScene.ts:204-209 | four draws are taken, in the order x, y, radius, energy, and the generator advances by four |
| Scenes.GameScene.SpawnCentreAmoeba | src/game/scenes/GameScene.ts:198-201 | the centre amoeba with the next number is appended and the amoeba counter goes up by one |
| Scenes.GameScene.SpawnFoods | src/game/scenes/GameScene.ts:203-212 | the loop appends exactly `InitialFoods` from the generator's state and advances it by 4n; nothing else changes |
| Scenes.GameScene.SpawnPoisons | src/game/scenes/GameScene.ts:214-223 | the loop appends exactly `InitialPoisons` from the generator's state and advances it by 4n |
| Scenes.GameScene.DrawEnemySpot | src/game/scenes/GameScene.ts:226-234 | the do-while finds the spot `EnemySpot` gives, or none within the tries |
| Scenes.GameScene.SpawnOneEnemy | src/game/scenes/GameScene.ts:226-236 | a spot that is found yields the enemy numbered by the counter, appended; nothing else changes |
| Scenes.GameScene.SpawnEnemies | src/game/scenes/GameScene.ts:225-237 | the loop appends exactly `InitialEnemies` and advances the enemy counter by n, or reports that a placement ran out of tries |
| Scenes.GameScene.SpawnInitialEntities | src/game/scenes/GameScene.ts:195-238 | after seeding from the game settings, the world becomes exactly `InitialEntities` of the old world |
| Scenes.GameScene.UpdateStats | src/game/scenes/GameScene.ts:240-251 | the statistics become `SceneStats` of the world; nothing else in the store changes |
| Scenes.GameScene.SelectFirstAndUpdateStats | src/game/scenes/GameScene.ts:160-165 | the first amoeba, if any, becomes the selected one, then the statistics are updated |
| Scenes.GameScene.Create | src/game/scenes/GameScene.ts:47-94 | after creation the world is the generated one, its centre amoeba is selected and the statistics are the scene's |
| Scenes.GameScene.StartGame | src/game/scenes/GameScene.ts:127-130 | the manager starts and the statistics say the game runs; nothing else changes |
| Scenes.GameScene.PauseGame | src/game/scenes/GameScene.ts:132-135 | the manager stops and the statistics say the game is paused; nothing else changes |
| Scenes.GameScene.ResetGame | src/game/scenes/GameScene.ts:137-166 | the manager stops; a missing clearHistory throws and leaves everything else as it was; otherwise the counters are zeroed, the log cleared, the world regenerated from empty and its centre amoeba selected |

## Left out

- Rendering is not modelled: drawing, animation, the camera, input, tooltips and the
  tombstones laid at death (`Tombstone.ts` is not part of this model). The scene's
  tombstone array is dropped.
- The outside world is not modelled: the HTTP `fetch`, `localStorage`, the Vue `watch`,
  `alert` and console output. The store's persisted text and the HTTP outcome are inputs.
- The cycle timer is a pending-interval field. Real `setTimeout` timing is out of scope.
- `Promise.allSettled` is sequentialised: amoebas are asked one after another, in array
  order, through a reply oracle `replies(agent, attempt)`. The source lets replies settle
  concurrently, so the order of log entries across amoebas is nondeterministic there.
- Cycles.CycleManager.RunCycle: runs a cycle as one uninterrupted step. In the program,
  `runCycle` waits on `Promise.allSettled` (src/game/systems/CycleManager.ts:102). During
  that wait, UI events (stop, start, reset, a new selection, edited settings) and tween
  completions can run, and the model includes none of them. After the wait the program does
  not check `cycling` again, so a stop during the wait still runs every later phase of that
  cycle. A stop followed by a start during the wait makes `start()` set a timer, and the
  resumed cycle then sets a second one through `scheduleNextCycle`, overwriting
  `cycleTimer`. Two cycle chains then run. The model's single pending timer cannot express
  this.
- `Math.random` becomes parameters: the draw for seed 0, the division offsets, the enemy
  wander steps and the respawn draws.
- `Math.sqrt` and Phaser's distance are the abstract `env.dist`. `Math.cos`/`Math.sin` of
  the direction angles are the offset table `env.directions`.
- The enemies' distance from the world centre at spawn is compared by squares, with no
  square root.
- `Scenes.InitialEnemies` bounds the enemy spawn do-while by `tries`. A run that does not
  place an enemy within that many tries is reported as not done, not modelled further.
- `clearHistory`, which `resetGame` calls, is not defined by `CycleManager`. It is the
  `hasClearHistory` parameter of `Scenes.GameScene.ResetGame`; without it the reset stops
  right after `stop()`, as the thrown error does.
- `GameScene` constructs `CycleManager` with six arguments (the tombstones too). The
  constructor declares five, and the model takes the world and the store.
- `AMOEBA_DEATH_ENERGY_THRESHOLD` and `DIRECTIONS` are imported but not defined in
  `constants.ts`, so they are `env` parameters, required to be a non-empty table.
- The parser knows eight direction names, the hexagonal table has six directions and the
  response schema offers six labels. The model keeps each table as written.
- `resetGame` does not call `resetAmoebaIds`, so amoeba numbering continues after a reset.
  The model keeps that.
- `Number.prototype.toFixed`, number-to-text conversion, `Number(text)` and `JSON.parse`
  go through the `Runtime` parameter. Their IEEE-754 behaviour is not modelled: the model
  computes on reals and unbounded integers, except Mulberry32, which is exact on 32-bit
  words.
- The scene's specification functions take any draw function. The `Generator` object
  fixes it to Mulberry32.
- A move records a pending tween and the position changes when the tween completes. So
  every phase of a cycle sees the positions from before that cycle's moves.
- `Enemy.feeding` is assigned in `EnemyAI.ts` but not declared in `Enemy.ts`. The model
  declares it as a field.
- Text.AsciiLower: only the letters A to Z are lowered. JavaScript's `toLowerCase` is
  Unicode-aware and can change the length (U+0130 becomes two code units). It lowers
  KELVIN SIGN (U+212A) to `k`, so `"\u212Ao3"` becomes `"ko3"`, where `\bo` fails and the
  program says "not a reasoning model". The model keeps U+212A, which is not a word
  character, and calls the name a reasoning model. Model names and directions are taken
  as ASCII.
- Text.TrimSpaces: removes spaces only; JavaScript's `trim` removes every whitespace
  character. The one text trimmed is a retry's details (`Decisions.AcceptedDetails`). That
  text starts with `d` (a move's `dir ...`) or one space, and ends with `)`, so no other
  whitespace can reach its ends.
- The cycle runs the corrected parser, which accepts own direction names only (see
  Findings). The program itself would accept a `"constructor"` reply and log its details
  as `dir function Object() { [native code] }, dist 2`. It would then move by
  `DIRECTIONS[<function>] ?? DIRECTIONS[0]`. The model instead logs an error entry for that
  reply and the amoeba idles.
- The content of a reply's first choice is taken to be a string, as the response type
  declares. A non-string content, which would make the parser's `match` throw, is not
  modelled. The runtime's error messages (a body that is not JSON, a `null` body, a choice
  without a message) come with the reply.
- Store.LoadSettings: the source spreads the parsed sections over the defaults and copies
  whatever value is stored, of any type. The model merges field by field. A stored field of
  the wrong JSON type, or a fractional number for an integer setting, keeps its default.
  A parsed value that is not an object gives the defaults.
- Store.MergeMissing: states only that missing sections and empty sections keep every
  default, for the same reason.

## Findings

| source | as written | input that shows it | evidently intended | confidence | as-written member | corrected member |
|---|---|---|---|---|---|---|
| src/llm/ResponseParser.ts:48-55 | the direction name is looked up in a plain object literal, so the inherited `Object.prototype` member `constructor` is not `undefined` and passes the check | `{"action":"move","direction":"constructor","distance":2}` is accepted as a move | only the eight own direction names are accepted | not executed | ResponseParser.DirectionLookupAsWritten, ResponseParser.PrototypeDirectionAccepted | ResponseParser.ValidateMove, ResponseParser.OwnLookupAgrees |


/**
 * The cycle manager: the timer that starts a cycle, the decisions asked of every ready amoeba,
 * and the world phases that follow (actions, enemies, poison, decay, removal, respawn, HUD
 * counts). Each phase is a method over the shared entity lists, proved to move the world by the
 * matching rule on values, so that a whole cycle moves it by `CycleWorld`.
 */
module Cycles {
  import opened Wrappers
  import opened Constants
  import opened Geometry
  import opened Js
  import opened Text
  import opened Types
  import opened Resources
  import opened Amoebas
  import opened Enemies
  import opened Vision
  import opened Worlds
  import opened Phases
  import opened Decisions
  import EnemyAI
  import Store
  import PromptBuilder
  import LLMClient
  import opened Progress

  // ----- what a cycle asks -----

  /** The two messages `buildMessages` makes for an amoeba from the world as it stands. */
  function PromptFor(settings: LLMSettings, a: AmoebaValue, w: WorldValue, env: Env, rt: Runtime): (m: seq<Message>)
    ensures |m| == 2 && m[0] == Message(System, settings.systemPrompt) && m[1].role == User
  {
    var seen := Surroundings(a, w.amoebas, w.enemies, w.foods, w.poisons, AMOEBA_VISION_CM, env);
    [Message(System, settings.systemPrompt), Message(User, Join(PromptBuilder.UserLines(View(a), seen, rt), "\n"))]
  }

  /** Who decides for amoeba `a` in cycle `cycle`, with `replies` the transports of its attempts. */
  function AgentFor(cycle: int, a: AmoebaValue, foods: seq<FoodValue>, settings: LLMSettings,
                    replies: nat -> LLMClient.Transport, env: Env, rt: Runtime): Agent {
    Agent(cycle, a, foods, settings, replies, env, rt)
  }

  /**
   * How an agent makes its attempts. The program's own is `Decisions.Attempts` (chat, parse,
   * check); the cycle is stated for any, and `RunCycle` passes that one.
   */
  type Attempter = Agent -> Step

  /** The decision of the ready amoeba `a` when `attempts` makes the attempts. */
  function DecisionOf(cycle: int, a: AmoebaValue, w: WorldValue, settings: LLMSettings,
                      replies: nat -> LLMClient.Transport, env: Env, rt: Runtime, attempts: Attempter): Decision {
    var c := AgentFor(cycle, a, w.foods, settings, replies, env, rt);
    DecideFrom(c, attempts(c), PromptFor(settings, a, w, env, rt), 0)
  }

  /** With the program's attempts, that is `getAmoebaAction`'s decision. */
  lemma DecisionOfDecide(cycle: int, a: AmoebaValue, w: WorldValue, settings: LLMSettings,
                         replies: nat -> LLMClient.Transport, env: Env, rt: Runtime)
    ensures DecisionOf(cycle, a, w, settings, replies, env, rt, Attempts)
      == Decide(AgentFor(cycle, a, w.foods, settings, replies, env, rt), PromptFor(settings, a, w, env, rt))
  {
  }

  /**
   * The decisions of a cycle, one per ready amoeba in list order; `replies(k)` answers the
   * `k`-th ready amoeba.
   */
  function CycleDecisions(cycle: int, w: WorldValue, settings: LLMSettings,
                          replies: nat -> nat -> LLMClient.Transport, env: Env, rt: Runtime, attempts: Attempter)
    : (ds: seq<Decision>)
    ensures |ds| == |ReadyIndices(w.amoebas)|
  {
    var ready := ReadyIndices(w.amoebas);
    seq(|ready|, k requires 0 <= k < |ready| =>
      DecisionOf(cycle, w.amoebas[ready[k]], w, settings, replies(k), env, rt, attempts))
  }

  /** The first `k + 1` entries of a list are the first `k` and then entry `k`. */
  lemma Snoc<T>(xs: seq<T>, k: nat)
    requires k < |xs|
    ensures xs[..k + 1] == xs[..k] + [xs[k]]
  {
  }

  /** The actions of a list of decisions; a rejected promise never occurs in the model. */
  function ActionsOf(ds: seq<Decision>): (actions: seq<Action>)
    ensures |actions| == |ds| && forall k :: 0 <= k < |ds| ==> actions[k] == ds[k].action
  {
    seq(|ds|, k requires 0 <= k < |ds| => ds[k].action)
  }

  /** The log entries of a list of decisions, one decision after the other. */
  function EntriesOf(ds: seq<Decision>): seq<LogEntry> {
    if ds == [] then [] else EntriesOf(ds[..|ds| - 1]) + ds[|ds| - 1].entries
  }

  /** One more decision adds its action and then its entries. */
  lemma Recorded(ds: seq<Decision>, d: Decision)
    ensures ActionsOf(ds + [d]) == ActionsOf(ds) + [d.action]
    ensures EntriesOf(ds + [d]) == EntriesOf(ds) + d.entries
  {
    assert (ds + [d])[..|ds|] == ds;
  }

  /** A cycle asks each ready amoeba once and logs between one and MAX_RETRIES + 2 entries for it. */
  lemma {:induction false} EntriesOfBounds(ds: seq<Decision>, c: seq<Agent>)
    requires |c| == |ds| && forall k :: 0 <= k < |ds| ==> WellFormed(c[k], ds[k], 0)
    ensures |ds| <= |EntriesOf(ds)| <= |ds| * (MAX_RETRIES + 2)
  {
    if ds != [] {
      EntriesOfBounds(ds[..|ds| - 1], c[..|c| - 1]);
    }
  }

  /**
   * Where the retry loop stands in decision `d`: the entries `done` are logged, and what is left
   * of `d` is the decision from `attempt` on with the conversation as it is now.
   */
  ghost predicate Pending(c: Agent, step: Step, d: Decision, conversation: seq<Message>, attempt: nat, done: seq<LogEntry>) {
    && attempt <= MAX_RETRIES + 1
    && var rest := DecideFrom(c, step, conversation, attempt);
      d.action == rest.action && d.entries == done + rest.entries
  }

  /** A refused attempt is logged and the loop goes on with the answered conversation. */
  lemma PendingRefused(c: Agent, step: Step, d: Decision, conversation: seq<Message>, attempt: nat, done: seq<LogEntry>)
    requires Pending(c, step, d, conversation, attempt, done)
    requires attempt <= MAX_RETRIES && step(conversation, attempt).Refused?
    ensures var t := step(conversation, attempt);
      Pending(c, step, d, Retried(conversation, attempt, t.raw, t.reason), attempt + 1,
              done + [AttemptEntry(c, t, conversation, attempt)])
  {
  }

  /** An attempt that is not refused ends the decision with its own entry. */
  lemma PendingSettled(c: Agent, step: Step, d: Decision, conversation: seq<Message>, attempt: nat, done: seq<LogEntry>)
    requires Pending(c, step, d, conversation, attempt, done)
    requires attempt <= MAX_RETRIES && !step(conversation, attempt).Refused?
    ensures var t := step(conversation, attempt);
      && d.action == (if t.Accepted? then t.action else Idle)
      && d.entries == done + [AttemptEntry(c, t, conversation, attempt)]
  {
  }

  /** With the retries used up, the decision is idle and ends with the give-up entry. */
  lemma PendingGaveUp(c: Agent, step: Step, d: Decision, conversation: seq<Message>, attempt: nat, done: seq<LogEntry>)
    requires Pending(c, step, d, conversation, attempt, done) && attempt > MAX_RETRIES
    ensures d.action == Idle && d.entries == done + [GiveUpEntry(c, conversation)]
  {
  }


  /** Removal commutes with taking the items' data: the data of the surviving food items are the surviving data. */
  lemma FoodStatesKept(fs: seq<Food>, drop: seq<bool>)
    requires |drop| == |fs|
    ensures FoodStates(Kept(fs, drop)) == Kept(FoodStates(fs), drop)
  {
    KeptSelects(fs, drop);
    KeptSelects(FoodStates(fs), drop);
  }

  /** Removal commutes with taking the items' data: the data of the surviving poison items are the surviving data. */
  lemma PoisonStatesKept(ps: seq<Poison>, drop: seq<bool>)
    requires |drop| == |ps|
    ensures PoisonStates(Kept(ps, drop)) == Kept(PoisonStates(ps), drop)
  {
    KeptSelects(ps, drop);
    KeptSelects(PoisonStates(ps), drop);
  }
  /** Everything in the store but the decision log. */
  function Unlogged(s: Store.GameStore): (LLMSettings, GameSettings, GameStats, Option<string>)
    reads s
  {
    (s.llmSettings, s.gameSettings, s.stats, s.selectedAmoebaId)
  }

  // ----- the cycle manager -----

  class CycleManager {
    const world: World
    const store: Store.GameStore
    var cycling: bool
    /** The interval of the pending `setTimeout`, if one is pending. */
    var cycleTimer: Option<int>

    constructor(world: World, store: Store.GameStore)
      ensures this.world == world && this.store == store
      ensures !cycling && cycleTimer.None?
    {
      this.world := world;
      this.store := store;
      cycling := false;
      cycleTimer := None;
    }

    /** `start()`: a second start while running does nothing. */
    method Start()
      modifies this
      ensures cycling
      ensures old(cycling) ==> cycleTimer == old(cycleTimer)
      ensures !old(cycling) ==> cycleTimer == Some(store.gameSettings.cycleIntervalMs)
    {
      if cycling {
        return;
      }
      cycling := true;
      ScheduleNextCycle();
    }

    /** `stop()`: no cycle is scheduled any more. */
    method Stop()
      modifies this
      ensures !cycling && cycleTimer.None?
    {
      cycling := false;
      if cycleTimer.Some? {
        cycleTimer := None;
      }
    }

    /** `scheduleNextCycle()`: a timer with the configured interval, only while cycling. */
    method ScheduleNextCycle()
      modifies this
      ensures cycling == old(cycling)
      ensures cycling ==> cycleTimer == Some(store.gameSettings.cycleIntervalMs)
      ensures !cycling ==> cycleTimer == old(cycleTimer)
      ensures world.Snapshot() == old(world.Snapshot()) && (old(world.Valid()) ==> world.Valid())
      ensures unchanged(store)
    {
      if !cycling {
        return;
      }
      cycleTimer := Some(store.gameSettings.cycleIntervalMs);
    }

    // ----- one decision -----

    /**
     * `getAmoebaAction`: the surroundings and the prompt, then up to MAX_RETRIES + 1 attempts,
     * each logged, until one is accepted, one fails, or the retries are used up.
     */
    method GetAmoebaAction(amoeba: Amoeba, settings: LLMSettings, replies: nat -> LLMClient.Transport,
                           env: Env, rt: Runtime, attempts: Attempter)
      returns (action: Action)
      requires store.Valid()
      modifies store
      ensures store.Valid()
      ensures var w := old(world.Snapshot()); var a := old(amoeba.State());
        var d := DecisionOf(old(store.stats.cycleCount), a, w, settings, replies, env, rt, attempts);
        action == d.action && store.llmLog == AppendAll(old(store.llmLog), d.entries)
      ensures Unlogged(store) == old(Unlogged(store))
    {
      ghost var w, a := world.Snapshot(), amoeba.State();
      var messages := Prompt(amoeba, settings, env, rt);
      var c := AgentFor(store.stats.cycleCount, amoeba.State(), FoodStates(world.foods), settings, replies, env, rt);
      assert c == AgentFor(store.stats.cycleCount, a, w.foods, settings, replies, env, rt);
      action := Converse(c, attempts(c), messages);
    }

    /** The surroundings of `amoeba` and the two messages built from them. */
    method Prompt(amoeba: Amoeba, settings: LLMSettings, env: Env, rt: Runtime) returns (messages: seq<Message>)
      ensures messages == PromptFor(settings, amoeba.State(), world.Snapshot(), env, rt)
    {
      var surroundings := GetSurroundings(amoeba, world.amoebas, world.enemies, world.foods, world.poisons,
                                          AMOEBA_VISION_CM, env);
      messages := PromptBuilder.BuildMessages(settings.systemPrompt, View(amoeba.State()), surroundings, rt);
    }

    /**
     * The decision phase of `runCycle`: every ready amoeba is asked in list order. The source
     * awaits the requests together; here they run one after the other, so each amoeba's entries
     * stay together in the log.
     */
    method RequestDecisions(ready: seq<Amoeba>, ghost R: seq<nat>, settings: LLMSettings,
                            replies: nat -> nat -> LLMClient.Transport, env: Env, rt: Runtime, attempts: Attempter)
      returns (actions: seq<Action>)
      requires store.Valid() && R == ReadyIndices(AmoebaStates(world.amoebas))
      requires |ready| == |R| && forall k :: 0 <= k < |R| ==> world.amoebas[R[k]] == ready[k]
      modifies store
      ensures store.Valid() && world.amoebas == old(world.amoebas)
      ensures world.Snapshot() == old(world.Snapshot()) && (world.Valid() <==> old(world.Valid()))
      ensures var ds := CycleDecisions(old(store.stats.cycleCount), old(world.Snapshot()), settings, replies, env, rt, attempts);
        actions == ActionsOf(ds) && store.llmLog == AppendAll(old(store.llmLog), EntriesOf(ds))
      ensures Unlogged(store) == old(Unlogged(store))
    {
      ghost var w := world.Snapshot();
      ghost var ds := CycleDecisions(store.stats.cycleCount, w, settings, replies, env, rt, attempts);
      ghost var log0, u := store.llmLog, Unlogged(store);
      ghost var done: seq<Decision> := [];
      actions := [];
      var k := 0;
      while k < |ready|
        invariant k <= |ready| && Asked(w, R, ds, k, done, actions, log0, u, settings, replies, env, rt, attempts)
      {
        actions, done := Ask(ready[k], w, R, ds, k, done, actions, log0, u, settings, replies, env, rt, attempts);
        k := k + 1;
      }
      assert ds[..k] == ds;
    }

    /**
     * The first `k` ready amoebas of world `w` have been asked: `actions` are their actions and
     * the log holds `log0` and then their entries.
     */
    ghost predicate Asked(w: WorldValue, R: seq<nat>, ds: seq<Decision>, k: nat, done: seq<Decision>,
                          actions: seq<Action>, log0: seq<LogEntry>, u: (LLMSettings, GameSettings, GameStats, Option<string>),
                          settings: LLMSettings, replies: nat -> nat -> LLMClient.Transport, env: Env, rt: Runtime,
                          attempts: Attempter)
      reads world, world.amoebas, world.enemies, world.foods, world.poisons, world.amoebaIds, store
    {
      && world.Snapshot() == w && R == ReadyIndices(w.amoebas) && k <= |R|
      && ds == CycleDecisions(u.2.cycleCount, w, settings, replies, env, rt, attempts)
      && done == ds[..k] && actions == ActionsOf(done) && Logged(log0, EntriesOf(done), u)
    }

    /** `getAmoebaAction` for the `k`-th ready amoeba: its decision of the cycle, logged after the others. */
    method Ask(amoeba: Amoeba, ghost w: WorldValue, ghost R: seq<nat>, ghost ds: seq<Decision>, k: nat,
               ghost done: seq<Decision>, actions: seq<Action>, ghost log0: seq<LogEntry>,
               ghost u: (LLMSettings, GameSettings, GameStats, Option<string>), settings: LLMSettings,
               replies: nat -> nat -> LLMClient.Transport, env: Env, rt: Runtime, attempts: Attempter)
      returns (actions': seq<Action>, ghost done': seq<Decision>)
      requires Asked(w, R, ds, k, done, actions, log0, u, settings, replies, env, rt, attempts)
      requires k < |R| && world.amoebas[R[k]] == amoeba
      modifies store
      ensures Asked(w, R, ds, k + 1, done', actions', log0, u, settings, replies, env, rt, attempts)
    {
      var action := GetAmoebaAction(amoeba, settings, replies(k), env, rt, attempts);
      AppendAllConcat(log0, EntriesOf(done), ds[k].entries);
      Snoc(ds, k);
      Recorded(done, ds[k]);
      done' := done + [ds[k]];
      actions' := actions + [action];
    }

    /** The retry loop of `getAmoebaAction`, with `step` making the attempts. */
    method Converse(c: Agent, step: Step, messages: seq<Message>) returns (action: Action)
      requires store.Valid()
      modifies store
      ensures store.Valid()
      ensures var d := DecideFrom(c, step, messages, 0);
        action == d.action && store.llmLog == AppendAll(old(store.llmLog), d.entries)
      ensures Unlogged(store) == old(Unlogged(store))
    {
      var conversation := messages;
      ghost var d := DecideFrom(c, step, messages, 0);
      ghost var log0, u := store.llmLog, Unlogged(store);
      ghost var done: seq<LogEntry> := [];
      var attempt, settled := 0, false;
      action := Idle;
      while !settled && attempt <= MAX_RETRIES
        invariant Logged(log0, done, u)
        invariant settled ==> d.action == action && d.entries == done
        invariant !settled ==> action == Idle && Pending(c, step, d, conversation, attempt, done)
        decreases MAX_RETRIES + 1 - attempt, !settled
      {
        settled, action, conversation, done := Round(c, step, conversation, attempt, d, log0, done, u);
        if !settled {
          attempt := attempt + 1;
        }
      }
      if !settled {
        GiveUp(c, step, conversation, attempt, d, log0, done, u);
      }
    }

    /** Giving up once the retries are used up: the give-up entry, and the action stays idle. */
    method GiveUp(c: Agent, step: Step, conversation: seq<Message>, attempt: nat, ghost d: Decision,
                  ghost log0: seq<LogEntry>, ghost done: seq<LogEntry>,
                  ghost u: (LLMSettings, GameSettings, GameStats, Option<string>))
      requires Pending(c, step, d, conversation, attempt, done) && Logged(log0, done, u)
      requires attempt > MAX_RETRIES
      modifies store
      ensures Logged(log0, d.entries, u) && d.action == Idle
    {
      PendingGaveUp(c, step, d, conversation, attempt, done);
      Log(GiveUpEntry(c, conversation), log0, done, u);
    }

    /**
     * One pass of the retry loop: the attempt and its log entry; a refusal goes on with the
     * answered conversation, anything else settles the decision.
     */
    method Round(c: Agent, step: Step, conversation: seq<Message>, attempt: nat, ghost d: Decision,
                 ghost log0: seq<LogEntry>, ghost done: seq<LogEntry>,
                 ghost u: (LLMSettings, GameSettings, GameStats, Option<string>))
      returns (settled: bool, action: Action, next: seq<Message>, ghost logged: seq<LogEntry>)
      requires Pending(c, step, d, conversation, attempt, done) && Logged(log0, done, u)
      requires attempt <= MAX_RETRIES
      modifies store
      ensures Logged(log0, logged, u)
      ensures settled ==> d.action == action && d.entries == logged
      ensures !settled ==> action == Idle && Pending(c, step, d, next, attempt + 1, logged)
    {
      var outcome := Exchange(c, step, conversation, attempt, log0, done, u);
      logged := done + [AttemptEntry(c, outcome, conversation, attempt)];
      if outcome.Refused? {
        PendingRefused(c, step, d, conversation, attempt, done);
        settled, action, next := false, Idle, Retried(conversation, attempt, outcome.raw, outcome.reason);
      } else {
        PendingSettled(c, step, d, conversation, attempt, done);
        settled, action, next := true, if outcome.Accepted? then outcome.action else Idle, conversation;
      }
    }

    /** The log holds `log0` and then the entries `done`, and the rest of the store is `u`. */
    ghost predicate Logged(log0: seq<LogEntry>, done: seq<LogEntry>, u: (LLMSettings, GameSettings, GameStats, Option<string>))
      reads store
    {
      store.Valid() && store.llmLog == AppendAll(log0, done) && Unlogged(store) == u
    }

    /** `after` is `before` with amoebas appended, and each amoeba not in `before` was created since the start of the call. */
    twostate predicate Grown(before: seq<Amoeba>, new after: seq<Amoeba>) {
      |before| <= |after| && after[..|before|] == before
      && forall a :: a in after ==> a in before || fresh(a)
    }

    /** One attempt of the retry loop: the chat call, the parse and the check, then its log entry. */
    method Exchange(c: Agent, step: Step, conversation: seq<Message>, attempt: nat, ghost log0: seq<LogEntry>,
                    ghost done: seq<LogEntry>, ghost u: (LLMSettings, GameSettings, GameStats, Option<string>))
      returns (outcome: Attempt)
      requires Logged(log0, done, u)
      modifies store
      ensures outcome == step(conversation, attempt)
      ensures Logged(log0, done + [AttemptEntry(c, outcome, conversation, attempt)], u)
    {
      outcome := step(conversation, attempt);
      Log(AttemptEntry(c, outcome, conversation, attempt), log0, done, u);
    }

    /** `addLogEntry` of the next entry of a decision whose first entries are `done`. */
    method Log(entry: LogEntry, ghost log0: seq<LogEntry>, ghost done: seq<LogEntry>,
               ghost u: (LLMSettings, GameSettings, GameStats, Option<string>))
      requires Logged(log0, done, u)
      modifies store
      ensures Logged(log0, done + [entry], u)
    {
      store.AddLogEntry(entry);
      assert (done + [entry])[..|done|] == done;
    }

    // ----- executing the decided actions -----

    /** `amoebas.filter(a => a.alive && !a.isMoving)`, with the positions of the chosen ones. */
    method ReadyAmoebas() returns (ready: seq<Amoeba>, ghost R: seq<nat>)
      ensures R == ReadyIndices(AmoebaStates(world.amoebas)) && |ready| == |R|
      ensures forall k :: 0 <= k < |R| ==> world.amoebas[R[k]] == ready[k]
    {
      var drop := NotReady(AmoebaStates(world.amoebas));
      ready := Kept(world.amoebas, drop);
      R := ReadyIndices(AmoebaStates(world.amoebas));
      KeptSelects(world.amoebas, drop);
    }

    /**
     * The loop of `runCycle` over the ready amoebas: `actions[k]` goes to `ready[k]` unless it
     * died earlier in the loop; `offsets(k)` is the angle its division would draw.
     */
    method ApplyActions(ready: seq<Amoeba>, ghost R: seq<nat>, actions: seq<Action>, offsets: nat -> DirOffset, env: Env)
      requires world.Valid() && |env.directions| > 0 && |ready| == |R| == |actions|
      requires forall k :: 0 <= k < |R| ==> R[k] < |world.amoebas| && world.amoebas[R[k]] == ready[k]
      modifies world, world.amoebas, world.foods, world.amoebaIds
      ensures world.Valid()
      ensures world.Snapshot() == ActionsPhase(old(world.Snapshot()), R, actions, offsets, env, |R|)
      ensures Grown(old(world.amoebas), world.amoebas) && world.foods == old(world.foods)
      ensures world.enemies == old(world.enemies) && world.poisons == old(world.poisons)
    {
      ghost var ws := ActionsTrace(world.Snapshot(), R, actions, offsets, env);
      ghost var amoebas0, foods0, enemies0, poisons0 := world.amoebas, world.foods, world.enemies, world.poisons;
      var k := 0;
      while k < |ready|
        invariant k <= |ready| && Acted(world, ws, amoebas0, foods0, enemies0, poisons0, k)
        invariant forall a :: a in world.amoebas ==> a in amoebas0 || fresh(a)
      {
        Act(ready, R, actions, offsets, env, k, ws, amoebas0, foods0, enemies0, poisons0);
        k := k + 1;
      }
      StepsReach(ws, R, actions, offsets, env, |R|);
    }

    /** One turn of that loop: the `k`-th ready amoeba, if still alive, carries out its action. */
    method Act(ready: seq<Amoeba>, ghost R: seq<nat>, actions: seq<Action>, offsets: nat -> DirOffset, env: Env,
               k: nat, ghost ws: seq<WorldValue>, ghost amoebas0: seq<Amoeba>, ghost foods0: seq<Food>,
               ghost enemies0: seq<Enemy>, ghost poisons0: seq<Poison>)
      requires Acted(world, ws, amoebas0, foods0, enemies0, poisons0, k) && k < |R| == |ready|
      requires Steps(ws, R, actions, offsets, env)
      requires forall j :: 0 <= j < |R| ==> R[j] < |amoebas0| && amoebas0[R[j]] == ready[j]
      modifies world, ready[k], world.foods, world.amoebaIds
      ensures Acted(world, ws, amoebas0, foods0, enemies0, poisons0, k + 1)
      ensures Grown(old(world.amoebas), world.amoebas)
    {
      assert ws[k + 1] == ActionStep(ws[k], R, actions, offsets, env, k);
      var amoeba := ready[k];
      if amoeba.alive {
        ExecuteAction(amoeba, actions[k], offsets(k), env, R[k]);
      }
    }

    /**
     * `handleFeeding`: the scan for the item offering the most at the amoeba's centre, then one
     * `consumeEnergy` of that item and the gain for the amoeba.
     */
    method HandleFeeding(amoeba: Amoeba, ghost i: nat, env: Env)
      requires world.Valid() && i < |world.amoebas| && world.amoebas[i] == amoeba
      modifies amoeba, world.foods
      ensures world.Valid()
      ensures var as_ := old(AmoebaStates(world.amoebas)); var fed := Fed(as_[i], old(FoodStates(world.foods)), env);
        AmoebaStates(world.amoebas) == as_[i := fed.0] && FoodStates(world.foods) == fed.1
    {
      ghost var as0, fs := AmoebaStates(world.amoebas), FoodStates(world.foods);
      ghost var fed := Fed(as0[i], fs, env);
      var bestFood, best := ChooseFood(ToCm(amoeba.pos), env);
      assert best == BestFood(ToCm(as0[i].pos), fs, env);
      if bestFood != null {
        var consumed := Consume(bestFood, best.value);
        ghost var fs1 := FoodStates(world.foods);
        assert fed == (EnergyAdded(as0[i], consumed * FEEDING_GAIN_PER_CYCLE), fs1);
        assert AmoebaStates(world.amoebas) == as0;
        Gain(amoeba, i, consumed * FEEDING_GAIN_PER_CYCLE);
        assert FoodStates(world.foods) == fs1;
      } else {
        assert fed == (as0[i], fs);
      }
    }

    /** `executeAction`: a move goes through `applyAction`; feeding and division are handled here. */
    method ExecuteAction(amoeba: Amoeba, action: Action, offset: DirOffset, env: Env, ghost i: nat)
      requires world.Valid() && i < |world.amoebas| && world.amoebas[i] == amoeba && |env.directions| > 0
      modifies world, amoeba, world.foods, world.amoebaIds
      ensures world.Valid()
      ensures world.Snapshot() == Executed(old(world.Snapshot()), i, action, offset, env)
      ensures Grown(old(world.amoebas), world.amoebas) && world.foods == old(world.foods)
      ensures world.enemies == old(world.enemies) && world.poisons == old(world.poisons)
    {
      match action {
        case Move(_, _) =>
          Apply(amoeba, action, env, i);
        case Feed =>
          HandleFeeding(amoeba, i, env);
        case Divide =>
          HandleDivision(amoeba, offset, i);
        case Idle =>
      }
    }

    /** `applyAction` of the `i`-th amoeba, seen from the whole list. */
    method Apply(amoeba: Amoeba, action: Action, env: Env, ghost i: nat)
      requires EnemyAI.Distinct(world.amoebas) && i < |world.amoebas| && world.amoebas[i] == amoeba
      requires |env.directions| > 0
      modifies amoeba
      ensures var as_ := old(AmoebaStates(world.amoebas));
        AmoebaStates(world.amoebas) == as_[i := ActionApplied(as_[i], action, env)]
    {
      EnemyAI.DistinctIndices(world.amoebas);
      var _ := amoeba.ApplyAction(action, env);
    }

    /** `handleDivision`: a dividing amoeba's child is appended to the list. */
    method HandleDivision(amoeba: Amoeba, offset: DirOffset, ghost i: nat)
      requires world.Valid() && i < |world.amoebas| && world.amoebas[i] == amoeba
      modifies world, amoeba, world.amoebaIds
      ensures world.Valid()
      ensures world.Snapshot() == Divided(old(world.Snapshot()), i, offset)
      ensures Grown(old(world.amoebas), world.amoebas) && world.foods == old(world.foods)
      ensures world.enemies == old(world.enemies) && world.poisons == old(world.poisons)
    {
      if amoeba.energy < DIVISION_ENERGY_THRESHOLD {
        return;
      }
      var child := Split(amoeba, i, offset);
      if child != null {
        Append(child);
      }
    }

    /** `amoeba.divide()` seen from the world: only the parent's entry and the id counter change. */
    method Split(amoeba: Amoeba, ghost i: nat, offset: DirOffset) returns (child: Amoeba?)
      requires world.Valid() && i < |world.amoebas| && world.amoebas[i] == amoeba
      modifies amoeba, world.amoebaIds
      ensures world.Valid()
      ensures var w := old(world.Snapshot()); var a := w.amoebas[i];
        if CanDivide(a) then
          && child != null && fresh(child)
          && child.State() == DivideChild(a, offset, AmoebaId(w.nextAmoeba))
          && world.Snapshot() == w.(amoebas := w.amoebas[i := DivideParent(a)], nextAmoeba := w.nextAmoeba + 1)
        else
          child == null && world.Snapshot() == w
    {
      EnemyAI.DistinctIndices(world.amoebas);
      ghost var w := world.Snapshot();
      child := amoeba.Divide(world.amoebaIds, offset);
      assert AmoebaStates(world.amoebas) == w.amoebas[i := amoeba.State()];
      assert EnemyStates(world.enemies) == w.enemies && FoodStates(world.foods) == w.foods;
      assert PoisonStates(world.poisons) == w.poisons;
    }

    /** `amoebas.push(child)` for an amoeba not yet in the list. */
    method Append(child: Amoeba)
      requires world.Valid() && child !in world.amoebas
      modifies world
      ensures world.Valid() && world.amoebas == old(world.amoebas) + [child]
      ensures world.Snapshot() == old(world.Snapshot()).(amoebas := old(world.Snapshot()).amoebas + [child.State()])
      ensures world.foods == old(world.foods) && world.enemies == old(world.enemies) && world.poisons == old(world.poisons)
    {
      EnemyAI.DistinctSnoc<Amoeba>(world.amoebas, child);
      ghost var as1 := AmoebaStates(world.amoebas);
      world.amoebas := world.amoebas + [child];
      assert AmoebaStates(world.amoebas) == as1 + [child.State()];
    }

    /** `consumeEnergy` of the `j`-th food item, seen from the whole list. */
    method Consume(food: Food, ghost j: nat) returns (consumed: real)
      requires world.Valid() && j < |world.foods| && world.foods[j] == food
      modifies food
      ensures world.Valid()
      ensures var fs := old(FoodStates(world.foods));
        && consumed == Consumed(fs[j].remaining)
        && FoodStates(world.foods) == fs[j := fs[j].(remaining := fs[j].remaining - consumed)]
      ensures AmoebaStates(world.amoebas) == old(AmoebaStates(world.amoebas))
    {
      EnemyAI.DistinctIndices(world.foods);
      consumed := food.ConsumeEnergy();
    }

    /** `addEnergy` of the `i`-th amoeba, seen from the whole list. */
    method Gain(amoeba: Amoeba, ghost i: nat, amount: real)
      requires EnemyAI.Distinct(world.amoebas) && i < |world.amoebas| && world.amoebas[i] == amoeba
      modifies amoeba
      ensures var as_ := old(AmoebaStates(world.amoebas));
        AmoebaStates(world.amoebas) == as_[i := EnergyAdded(as_[i], amount)]
      ensures FoodStates(world.foods) == old(FoodStates(world.foods)) && (old(world.Valid()) ==> world.Valid())
    {
      EnemyAI.DistinctIndices(world.amoebas);
      amoeba.AddEnergy(amount);
    }

    /** The scan of `handleFeeding`: the item chosen for an amoeba centred at `pos`, if any. */
    method ChooseFood(pos: Pos, env: Env) returns (bestFood: Food?, ghost best: Option<nat>)
      ensures best == BestFood(pos, FoodStates(world.foods), env)
      ensures best.None? <==> bestFood == null
      ensures best.Some? ==> bestFood == world.foods[best.value]
    {
      ghost var fs := FoodStates(world.foods);
      bestFood, best := null, None;
      var bestEnergy := 0.0;
      var k := 0;
      while k < |world.foods|
        invariant 0 <= k <= |world.foods|
        invariant best == BestFood(pos, fs[..k], env)
        invariant best.None? ==> bestFood == null && bestEnergy == 0.0
        invariant best.Some? ==> bestFood == world.foods[best.value] && bestEnergy == EnergyHere(pos, fs[best.value], env)
      {
        var food := world.foods[k];
        assert fs[..k + 1][..k] == fs[..k] && fs[..k + 1][k] == food.State();
        if !food.IsDepleted() {
          var dist := DistanceCm(env, pos, ToCm(food.pos));
          if dist <= food.radiusCm * FOOD_HALO_MULTIPLIER {
            var energyHere := EnergyAtDistance(food.State(), dist);
            if energyHere >= 1.0 && energyHere > bestEnergy {
              bestEnergy, bestFood, best := energyHere, food, Some(k);
            }
          }
        }
        k := k + 1;
      }
      assert fs[..k] == fs;
    }

    // ----- the phases after the actions -----

    /** `applyPassiveEffects`: each amoeba alive when the loop reaches it is drained by the poisons. */
    method ApplyPassiveEffects(env: Env)
      requires world.Valid()
      modifies world.amoebas
      ensures AmoebaStates(world.amoebas) == PassivePhase(old(AmoebaStates(world.amoebas)), PoisonStates(world.poisons), env)
    {
      EnemyAI.DistinctIndices(world.amoebas);
      ghost var as0, ps := AmoebaStates(world.amoebas), PoisonStates(world.poisons);
      var i := 0;
      while i < |world.amoebas|
        invariant 0 <= i <= |world.amoebas| && PoisonStates(world.poisons) == ps
        invariant forall j :: 0 <= j < |world.amoebas| ==>
          world.amoebas[j].State() == if j < i && as0[j].alive then Poisoned(as0[j], ps, env) else as0[j]
      {
        Drain(world.amoebas[i], ps, env);
        i := i + 1;
      }
    }

    /** The inner loop of `applyPassiveEffects`: one `takeDamage` per poison in range of a living amoeba. */
    method Drain(amoeba: Amoeba, ghost ps: seq<PoisonValue>, env: Env)
      requires ps == PoisonStates(world.poisons)
      modifies amoeba
      ensures var a := old(amoeba.State()); amoeba.State() == if a.alive then Poisoned(a, ps, env) else a
    {
      if !amoeba.alive {
        return;
      }
      var pos := ToCm(amoeba.pos);
      ghost var a0 := amoeba.State();
      var k := 0;
      while k < |world.poisons|
        invariant 0 <= k <= |world.poisons|
        invariant amoeba.State() == Poisoned(a0, ps[..k], env)
      {
        var poison := world.poisons[k];
        assert ps[..k + 1][..k] == ps[..k] && ps[..k + 1][k] == poison.State();
        var dist := DistanceCm(env, pos, ToCm(poison.pos));
        if InRange(poison.State(), dist) {
          amoeba.TakeDamage(POISON_DRAIN_PER_CYCLE, env.deathThreshold);
        }
        k := k + 1;
      }
      assert ps[..k] == ps;
    }

    /** `applyDecay`: every food and poison item not yet depleted decays once. */
    method ApplyDecay()
      requires world.Valid()
      modifies world.foods, world.poisons
      ensures world.Valid() && world.Snapshot() == DecayPhase(old(world.Snapshot()))
    {
      ghost var w := world.Snapshot();
      DecayFoods();
      DecayPoisons();
      assert FoodStates(world.foods) == DecayPhase(w).foods;
      assert PoisonStates(world.poisons) == DecayPhase(w).poisons;
    }

    /** The food loop of `applyDecay`. */
    method DecayFoods()
      requires world.Valid()
      modifies world.foods
      ensures world.Valid()
      ensures forall j :: 0 <= j < |world.foods| ==> world.foods[j].State() == DecayedFood(old(world.foods[j].State()))
      ensures AmoebaStates(world.amoebas) == old(AmoebaStates(world.amoebas))
      ensures EnemyStates(world.enemies) == old(EnemyStates(world.enemies))
      ensures PoisonStates(world.poisons) == old(PoisonStates(world.poisons))
    {
      EnemyAI.DistinctIndices(world.foods);
      var i := 0;
      while i < |world.foods|
        invariant 0 <= i <= |world.foods| && world.Valid()
        invariant forall j :: 0 <= j < |world.foods| ==>
          world.foods[j].State() == if j < i then DecayedFood(old(world.foods[j].State())) else old(world.foods[j].State())
      {
        var food := world.foods[i];
        if !food.IsDepleted() {
          food.Decay();
        }
        i := i + 1;
      }
    }

    /** The poison loop of `applyDecay`. */
    method DecayPoisons()
      requires EnemyAI.Distinct(world.poisons)
      modifies world.poisons
      ensures forall j :: 0 <= j < |world.poisons| ==> world.poisons[j].State() == DecayedPoison(old(world.poisons[j].State()))
      ensures AmoebaStates(world.amoebas) == old(AmoebaStates(world.amoebas))
      ensures EnemyStates(world.enemies) == old(EnemyStates(world.enemies))
      ensures FoodStates(world.foods) == old(FoodStates(world.foods)) && (old(world.Valid()) ==> world.Valid())
    {
      EnemyAI.DistinctIndices(world.poisons);
      var i := 0;
      while i < |world.poisons|
        invariant 0 <= i <= |world.poisons|
        invariant forall j :: 0 <= j < |world.poisons| ==>
          world.poisons[j].State() == if j < i then DecayedPoison(old(world.poisons[j].State())) else old(world.poisons[j].State())
      {
        var poison := world.poisons[i];
        if !poison.IsDepleted() {
          poison.Decay();
        }
        i := i + 1;
      }
    }

    /** `removeDeadEntities`: the dead amoebas and enemies and the depleted items leave their lists. */
    method RemoveDeadEntities()
      requires world.Valid()
      modifies world
      ensures world.Valid() && world.Snapshot() == Removed(old(world.Snapshot()))
    {
      RemoveAmoebas();
      RemoveEnemies();
      RemoveFoods();
      RemovePoisons();
    }

    /** The amoeba loop of `removeDeadEntities`. */
    method RemoveAmoebas()
      requires world.Valid()
      modifies world
      ensures world.Valid()
      ensures var w := old(world.Snapshot()); world.Snapshot() == w.(amoebas := Kept(w.amoebas, DeadAmoebas(w.amoebas)))
    {
      ghost var xs, vs := world.amoebas, AmoebaStates(world.amoebas);
      var drop := DeadAmoebas(AmoebaStates(world.amoebas));
      KeptSpec(xs, drop);
      KeptSelects(vs, drop);
      world.amoebas := SpliceOut(world.amoebas, drop);
      assert AmoebaStates(world.amoebas) == Kept(vs, drop);
    }

    /** The enemy loop of `removeDeadEntities`. */
    method RemoveEnemies()
      requires world.Valid()
      modifies world
      ensures world.Valid()
      ensures var w := old(world.Snapshot()); world.Snapshot() == w.(enemies := Kept(w.enemies, DeadEnemies(w.enemies)))
    {
      ghost var xs, vs := world.enemies, EnemyStates(world.enemies);
      var drop := DeadEnemies(EnemyStates(world.enemies));
      KeptSpec(xs, drop);
      KeptSelects(vs, drop);
      world.enemies := SpliceOut(world.enemies, drop);
      assert EnemyStates(world.enemies) == Kept(vs, drop);
    }

    /** The food loop of `removeDeadEntities`; `remove()` only destroys the drawing. */
    method RemoveFoods()
      requires world.Valid()
      modifies world
      ensures world.Valid()
      ensures var w := old(world.Snapshot()); world.Snapshot() == w.(foods := Kept(w.foods, DepletedFoods(w.foods)))
    {
      ghost var xs, vs := world.foods, FoodStates(world.foods);
      var drop := DepletedFoods(FoodStates(world.foods));
      KeptSpec(xs, drop);
      FoodStatesKept(xs, drop);
      world.foods := SpliceOut(world.foods, drop);
    }

    /** The poison loop of `removeDeadEntities`. */
    method RemovePoisons()
      requires world.Valid()
      modifies world
      ensures world.Valid()
      ensures var w := old(world.Snapshot()); world.Snapshot() == w.(poisons := Kept(w.poisons, DepletedPoisons(w.poisons)))
    {
      ghost var xs, vs := world.poisons, PoisonStates(world.poisons);
      var drop := DepletedPoisons(PoisonStates(world.poisons));
      KeptSpec(xs, drop);
      PoisonStatesKept(xs, drop);
      world.poisons := SpliceOut(world.poisons, drop);
    }

    /** `respawnItems`, for the cycle number in the store. */
    method RespawnItems(foodDraws: SpawnDraws, poisonDraws: SpawnDraws)
      requires world.Valid()
      modifies world
      ensures world.Valid()
      ensures world.Snapshot() == Respawned(old(world.Snapshot()), store.stats.cycleCount, foodDraws, poisonDraws)
    {
      ghost var w := world.Snapshot();
      var cycle := store.stats.cycleCount;
      if cycle % FOOD_RESPAWN_INTERVAL_CYCLES as int == 0 && |world.foods| < INITIAL_FOOD_COUNT {
        SpawnRandomFood(foodDraws);
      } else {
        assert w.foods + [] == w.foods;
      }
      if cycle % POISON_RESPAWN_INTERVAL_CYCLES as int == 0 && |world.poisons| < INITIAL_POISON_COUNT {
        SpawnRandomPoison(poisonDraws);
      } else {
        assert w.poisons + [] == w.poisons;
      }
    }

    /** `spawnRandomFood`: a full food item placed from the four draws, appended to the list. */
    method SpawnRandomFood(d: SpawnDraws)
      requires world.Valid()
      modifies world
      ensures world.Valid()
      ensures world.Snapshot() == old(world.Snapshot()).(foods := old(world.Snapshot()).foods + [SpawnedFood(d)])
    {
      var food := PlaceFood(d);
      world.AddFood(food);
    }

    /** `spawnRandomPoison`: a poison item placed from the four draws, appended to the list. */
    method SpawnRandomPoison(d: SpawnDraws)
      requires world.Valid()
      modifies world
      ensures world.Valid()
      ensures world.Snapshot() == old(world.Snapshot()).(poisons := old(world.Snapshot()).poisons + [SpawnedPoison(d)])
    {
      var poison := PlacePoison(d);
      world.AddPoison(poison);
    }

    /** `updateStats` of the cycle manager: the HUD counts and the selected amoeba's energy. */
    method UpdateStats()
      requires store.Valid()
      modifies store
      ensures store.Valid()
      ensures store.stats == CycleStats(old(store.stats), world.Snapshot(), store.selectedAmoebaId)
      ensures world.Snapshot() == old(world.Snapshot()) && (world.Valid() <==> old(world.Valid()))
      ensures (store.llmSettings, store.gameSettings, store.selectedAmoebaId, store.llmLog)
        == old((store.llmSettings, store.gameSettings, store.selectedAmoebaId, store.llmLog))
    {
      var as_, es, fs := AmoebaStates(world.amoebas), EnemyStates(world.enemies), FoodStates(world.foods);
      var energy := store.stats.selectedAmoebaEnergy;
      var selected := store.selectedAmoebaId;
      if selected.Some? && selected.value != "" {
        var sel := FindAlive(as_, selected.value);
        energy := if sel.Some? then as_[sel.value].energy else 0.0;
      } else if |as_| > 0 {
        energy := as_[0].energy;
      }
      store.stats := store.stats.(amoebaCount := |Kept(as_, DeadAmoebas(as_))|,
                                  foodCount := |Kept(fs, DepletedFoods(fs))|,
                                  enemyCount := |Kept(es, DeadEnemies(es))|,
                                  poisonCount := |world.poisons|,
                                  selectedAmoebaEnergy := energy);
    }

    // ----- the whole cycle -----

    /**
     * Everything `runCycle` does to the world after the decisions: the decided actions, the
     * enemies, the poison drain, decay, removal and respawn.
     */
    method WorldPhases(ready: seq<Amoeba>, ghost R: seq<nat>, actions: seq<Action>, offsets: nat -> DirOffset,
                       steps: int -> EnemyAI.WanderStep, foodDraws: SpawnDraws, poisonDraws: SpawnDraws, env: Env)
      requires world.Valid() && |env.directions| > 0 && R == ReadyIndices(AmoebaStates(world.amoebas))
      requires |ready| == |R| == |actions| && forall k :: 0 <= k < |R| ==> world.amoebas[R[k]] == ready[k]
      modifies world, world.amoebas, world.enemies, world.foods, world.poisons, world.amoebaIds
      ensures world.Valid()
      ensures world.Snapshot()
        == CycleWorld(old(world.Snapshot()), store.stats.cycleCount, actions, offsets, steps, foodDraws, poisonDraws, env)
      ensures unchanged(store)
    {
      ApplyActions(ready, R, actions, offsets, env);
      assert forall i :: 0 <= i < |world.amoebas| ==> world.amoebas[i] in old(world.amoebas) || fresh(world.amoebas[i]);
      Aftermath(steps, foodDraws, poisonDraws, env);
    }

    /** The phases after the actions: the enemies and the poison drain, then decay, removal and respawn. */
    method Aftermath(steps: int -> EnemyAI.WanderStep, foodDraws: SpawnDraws, poisonDraws: SpawnDraws, env: Env)
      requires world.Valid()
      modifies world, world.amoebas, world.enemies, world.foods, world.poisons
      ensures world.Valid()
      ensures world.Snapshot()
        == RunPhases(old(world.Snapshot()), CYCLE_PHASES, PhaseInputs(store.stats.cycleCount, steps, foodDraws, poisonDraws, env))
    {
      ghost var w := world.Snapshot();
      HuntAndDrain(steps, env);
      Tidy(foodDraws, poisonDraws);
      CyclePhasesInOrder(w, PhaseInputs(store.stats.cycleCount, steps, foodDraws, poisonDraws, env));
    }

    /** Decay, removal and respawn. */
    method Tidy(foodDraws: SpawnDraws, poisonDraws: SpawnDraws)
      requires world.Valid()
      modifies world, world.foods, world.poisons
      ensures world.Valid()
      ensures world.Snapshot() == Respawned(Removed(DecayPhase(old(world.Snapshot()))), store.stats.cycleCount, foodDraws, poisonDraws)
    {
      ApplyDecay();
      RemoveDeadEntities();
      RespawnItems(foodDraws, poisonDraws);
    }

    /** `enemyAI.update` and then `applyPassiveEffects`. */
    method HuntAndDrain(steps: int -> EnemyAI.WanderStep, env: Env)
      requires world.Valid()
      modifies world.enemies, world.amoebas
      ensures world.Valid() && world.Snapshot() == Drained(Hunted(old(world.Snapshot()), steps, env), env)
    {
      Hunt(steps, env);
      ghost var hunted := world.Snapshot();
      ApplyPassiveEffects(env);
      assert EnemyStates(world.enemies) == hunted.enemies && FoodStates(world.foods) == hunted.foods;
      assert PoisonStates(world.poisons) == hunted.poisons;
    }

    /** `enemyAI.update(enemies, amoebas, poisons)` on the world's lists. */
    method Hunt(steps: int -> EnemyAI.WanderStep, env: Env)
      requires world.Valid()
      modifies world.enemies, world.amoebas
      ensures world.Valid() && world.Snapshot() == Hunted(old(world.Snapshot()), steps, env)
    {
      ghost var w := world.Snapshot();
      ghost var r := EnemyAI.EnemyPhase(w.enemies, w.amoebas, w.poisons, steps, env, |w.enemies|);
      EnemyAI.Update(world.enemies, world.amoebas, world.poisons, steps, env);
      assert EnemyStates(world.enemies) == r.0 && AmoebaStates(world.amoebas) == r.1;
      assert unchanged(world.foods) && unchanged(world.poisons);
      assert FoodStates(world.foods) == w.foods && PoisonStates(world.poisons) == w.poisons;
      assert world.Snapshot() == w.(enemies := r.0, amoebas := r.1);
    }

    /** `gameStore.stats.cycleCount++`. */
    method Tick()
      requires store.Valid()
      modifies store
      ensures store.Valid() && store.stats == old(store.stats).(cycleCount := old(store.stats.cycleCount) + 1)
      ensures (store.llmSettings, store.gameSettings, store.selectedAmoebaId, store.llmLog)
        == old((store.llmSettings, store.gameSettings, store.selectedAmoebaId, store.llmLog))
    {
      store.stats := store.stats.(cycleCount := store.stats.cycleCount + 1);
    }

    /**
     * `runCycle` with `attempts` making each decision's attempts: nothing happens unless the
     * manager is cycling; otherwise the cycle number goes up, the cycle is played and the next
     * one is scheduled.
     */
    method CycleWith(replies: nat -> nat -> LLMClient.Transport, offsets: nat -> DirOffset,
                     steps: int -> EnemyAI.WanderStep, foodDraws: SpawnDraws, poisonDraws: SpawnDraws,
                     env: Env, rt: Runtime, attempts: Attempter)
      requires world.Valid() && store.Valid() && |env.directions| > 0
      modifies this, store, world, world.amoebas, world.enemies, world.foods, world.poisons, world.amoebaIds
      ensures world.Valid() && store.Valid() && cycling == old(cycling)
      ensures !old(cycling) ==> (world.Snapshot() == old(world.Snapshot()) && store.stats == old(store.stats)
                                 && store.llmLog == old(store.llmLog) && cycleTimer == old(cycleTimer))
      ensures old(cycling) ==> Cycled(old(world.Snapshot()), old(store.stats).(cycleCount := old(store.stats.cycleCount) + 1),
        old(store.llmLog), old(store.llmSettings), old(store.selectedAmoebaId),
        replies, offsets, steps, foodDraws, poisonDraws, env, rt, attempts, world.Snapshot(), store.stats, store.llmLog)
      ensures old(cycling) ==> cycleTimer == Some(store.gameSettings.cycleIntervalMs)
      ensures (store.llmSettings, store.gameSettings, store.selectedAmoebaId)
        == old((store.llmSettings, store.gameSettings, store.selectedAmoebaId))
    {
      if !cycling {
        return;
      }
      Advance(replies, offsets, steps, foodDraws, poisonDraws, env, rt, attempts);
      ScheduleNextCycle();
    }

    /** `gameStore.stats.cycleCount++` and then the cycle played under the new number. */
    method Advance(replies: nat -> nat -> LLMClient.Transport, offsets: nat -> DirOffset,
                   steps: int -> EnemyAI.WanderStep, foodDraws: SpawnDraws, poisonDraws: SpawnDraws,
                   env: Env, rt: Runtime, attempts: Attempter)
      requires world.Valid() && store.Valid() && |env.directions| > 0
      modifies store, world, world.amoebas, world.enemies, world.foods, world.poisons, world.amoebaIds
      ensures world.Valid() && store.Valid()
      ensures Cycled(old(world.Snapshot()), old(store.stats).(cycleCount := old(store.stats.cycleCount) + 1),
        old(store.llmLog), old(store.llmSettings), old(store.selectedAmoebaId),
        replies, offsets, steps, foodDraws, poisonDraws, env, rt, attempts, world.Snapshot(), store.stats, store.llmLog)
      ensures (store.llmSettings, store.gameSettings, store.selectedAmoebaId)
        == old((store.llmSettings, store.gameSettings, store.selectedAmoebaId))
    {
      ghost var w, log, settings, sel := world.Snapshot(), store.llmLog, store.llmSettings, store.selectedAmoebaId;
      Tick();
      assert world.Snapshot() == w && store.llmLog == log && store.llmSettings == settings && store.selectedAmoebaId == sel;
      Play(replies, offsets, steps, foodDraws, poisonDraws, env, rt, attempts);
    }

    /**
     * The body of `runCycle` once the cycle number is counted: the ready amoebas are asked with a
     * copy of the LLM settings, their actions carried out, the world phases run and the HUD
     * counts taken.
     */
    method Play(replies: nat -> nat -> LLMClient.Transport, offsets: nat -> DirOffset,
                steps: int -> EnemyAI.WanderStep, foodDraws: SpawnDraws, poisonDraws: SpawnDraws,
                env: Env, rt: Runtime, attempts: Attempter)
      requires world.Valid() && store.Valid() && |env.directions| > 0
      modifies store, world, world.amoebas, world.enemies, world.foods, world.poisons, world.amoebaIds
      ensures world.Valid() && store.Valid()
      ensures Cycled(old(world.Snapshot()), old(store.stats), old(store.llmLog), old(store.llmSettings),
        old(store.selectedAmoebaId), replies, offsets, steps, foodDraws, poisonDraws, env, rt, attempts,
        world.Snapshot(), store.stats, store.llmLog)
      ensures (store.llmSettings, store.gameSettings, store.selectedAmoebaId)
        == old((store.llmSettings, store.gameSettings, store.selectedAmoebaId))
    {
      ghost var w, s, log, sel := world.Snapshot(), store.stats, store.llmLog, store.selectedAmoebaId;
      var settings := store.llmSettings;
      ghost var ds := CycleDecisions(s.cycleCount, w, settings, replies, env, rt, attempts);
      var ready, R := ReadyAmoebas();
      var actions := RequestDecisions(ready, R, settings, replies, env, rt, attempts);
      assert actions == ActionsOf(ds) && store.llmLog == AppendAll(log, EntriesOf(ds));
      assert store.stats == s && store.selectedAmoebaId == sel;
      WorldPhases(ready, R, actions, offsets, steps, foodDraws, poisonDraws, env);
      ghost var w1 := world.Snapshot();
      assert w1 == CycleWorld(w, s.cycleCount, ActionsOf(ds), offsets, steps, foodDraws, poisonDraws, env);
      assert store.llmLog == AppendAll(log, EntriesOf(ds)) && store.stats == s;
      UpdateStats();
      assert world.Snapshot() == w1;
    }

    /**
     * What playing cycle number `s.cycleCount` from world `w`, statistics `s`, log `log` and
     * settings `settings` leaves: the world after `CycleWorld` with that cycle's decisions, the
     * statistics taken from that world, and the decisions' entries appended to the log.
     */
    ghost function Outcome(w: WorldValue, s: GameStats, log: seq<LogEntry>, settings: LLMSettings, selected: Option<string>,
                           replies: nat -> nat -> LLMClient.Transport, offsets: nat -> DirOffset,
                           steps: int -> EnemyAI.WanderStep, foodDraws: SpawnDraws, poisonDraws: SpawnDraws,
                           env: Env, rt: Runtime, attempts: Attempter): (WorldValue, GameStats, seq<LogEntry>)
      requires |env.directions| > 0
    {
      var ds := CycleDecisions(s.cycleCount, w, settings, replies, env, rt, attempts);
      var w1 := CycleWorld(w, s.cycleCount, ActionsOf(ds), offsets, steps, foodDraws, poisonDraws, env);
      (w1, CycleStats(s, w1, selected), AppendAll(log, EntriesOf(ds)))
    }

    /** The world `w1`, statistics `s1` and log `log1` are what that cycle leaves. */
    ghost predicate Cycled(w: WorldValue, s: GameStats, log: seq<LogEntry>, settings: LLMSettings, selected: Option<string>,
                           replies: nat -> nat -> LLMClient.Transport, offsets: nat -> DirOffset,
                           steps: int -> EnemyAI.WanderStep, foodDraws: SpawnDraws, poisonDraws: SpawnDraws,
                           env: Env, rt: Runtime, attempts: Attempter, w1: WorldValue, s1: GameStats, log1: seq<LogEntry>)
      requires |env.directions| > 0
    {
      (w1, s1, log1) == Outcome(w, s, log, settings, selected, replies, offsets, steps, foodDraws, poisonDraws, env, rt, attempts)
    }

    /**
     * `runCycle`: `replies(k)` answers the `k`-th ready amoeba, `offsets(k)` is the angle its
     * division draws, `steps(i)` are enemy `i`'s wander draws and the two spawn draws feed the
     * respawn.
     */
    method RunCycle(replies: nat -> nat -> LLMClient.Transport, offsets: nat -> DirOffset,
                    steps: int -> EnemyAI.WanderStep, foodDraws: SpawnDraws, poisonDraws: SpawnDraws,
                    env: Env, rt: Runtime)
      requires world.Valid() && store.Valid() && |env.directions| > 0
      modifies this, store, world, world.amoebas, world.enemies, world.foods, world.poisons, world.amoebaIds
      ensures world.Valid() && store.Valid() && cycling == old(cycling)
      ensures !old(cycling) ==> (world.Snapshot() == old(world.Snapshot()) && store.stats == old(store.stats)
                                 && store.llmLog == old(store.llmLog) && cycleTimer == old(cycleTimer))
      ensures old(cycling) ==> Cycled(old(world.Snapshot()), old(store.stats).(cycleCount := old(store.stats.cycleCount) + 1),
        old(store.llmLog), old(store.llmSettings), old(store.selectedAmoebaId),
        replies, offsets, steps, foodDraws, poisonDraws, env, rt, Attempts, world.Snapshot(), store.stats, store.llmLog)
      ensures old(cycling) ==> cycleTimer == Some(store.gameSettings.cycleIntervalMs)
    {
      CycleWith(replies, offsets, steps, foodDraws, poisonDraws, env, rt, Attempts);
    }
  }
}

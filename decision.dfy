/**
 * One amoeba's decision within a cycle: up to MAX_RETRIES + 1 chat calls, each reply parsed and
 * checked against the rules, a rejected action answered with the reply and the reason so the
 * model can choose again, and every attempt recorded in the decision log. The replies of the
 * chat endpoint are a parameter (`replies(attempt)` is the transport of that attempt).
 */
module Decisions {
  import opened Wrappers
  import opened Text
  import opened Js
  import opened Types
  import opened Geometry
  import opened Constants
  import opened Resources
  import opened Amoebas
  import opened Phases
  import Store
  import ResponseParser
  import LLMClient

  const MAX_RETRIES: nat := 3

  const FEED_REJECTION: string :=
    "You cannot feed here — your center is not within any food halo. You must move closer to a food source first. Choose a different action."

  /** The reason a division is refused, with the amoeba's energy to one decimal. */
  function DivideRejection(energy: real, rt: Runtime): string {
    "You cannot divide — your energy is " + rt.toFixed(energy, 1) + " but you need at least "
      + rt.numberToString(DIVISION_ENERGY_THRESHOLD) + ". Choose a different action."
  }

  /**
   * `validateAction`: the reason an action is refused, or None. Feeding is refused exactly when
   * no food item can feed the amoeba where it is, dividing exactly when its energy is below the
   * division threshold; moves are never refused.
   */
  function ValidateAction(a: AmoebaValue, action: Action, foods: seq<FoodValue>, env: Env, rt: Runtime): (r: Option<string>)
    ensures r.Some? <==>
      (action.Feed? && !CanFeedSomewhere(ToCm(a.pos), foods, env)) || (action.Divide? && !CanDivide(a))
    ensures action.Feed? && r.Some? ==> r.value == FEED_REJECTION
    ensures action.Divide? && r.Some? ==> r.value == DivideRejection(a.energy, rt)
  {
    match action
    case Feed => if CanFeedSomewhere(ToCm(a.pos), foods, env) then None else Some(FEED_REJECTION)
    case Divide => if a.energy < DIVISION_ENERGY_THRESHOLD then Some(DivideRejection(a.energy, rt)) else None
    case _ => None
  }

  /** An accepted feed finds a food item to eat from; an accepted division goes through. */
  lemma AcceptedActionsSucceed(a: AmoebaValue, action: Action, foods: seq<FoodValue>, env: Env, rt: Runtime)
    requires ValidateAction(a, action, foods, env, rt).None?
    ensures action.Feed? ==> BestFood(ToCm(a.pos), foods, env).Some?
    ensures action.Divide? ==> CanDivide(a)
  {
    FeedCheckMatchesFeeding(a, foods, env);
  }

  /** `formatActionDetails`: only a move has details, its direction index and distance. */
  function FormatActionDetails(action: Action, rt: Runtime): (r: Option<string>)
    ensures r.Some? <==> action.Move?
    ensures action.Move? ==> r.value == "dir " + IntToString(action.direction) + ", dist " + rt.numberToString(action.distance)
  {
    match action
    case Move(direction, distance) => Some("dir " + IntToString(direction) + ", dist " + rt.numberToString(distance))
    case _ => None
  }

  /**
   * The details of an accepted action. An accepted retry says which retry it was: after a
   * move's details, or alone for the other actions (`trim` drops the space before it).
   */
  function AcceptedDetails(action: Action, attempt: nat, rt: Runtime): (r: Option<string>)
    ensures attempt == 0 ==> r == FormatActionDetails(action, rt)
    ensures attempt > 0 && action.Move? ==>
      r == Some(FormatActionDetails(action, rt).value + " (retry " + NatToString(attempt) + ")")
    ensures attempt > 0 && !action.Move? ==> r == Some("(retry " + NatToString(attempt) + ")")
  {
    if attempt > 0 then
      var suffix := "(retry " + NatToString(attempt) + ")";
      var text := FormatActionDetails(action, rt).GetOr("") + " " + suffix;
      if action.Move? then
        assert text == FormatActionDetails(action, rt).value + " (retry " + NatToString(attempt) + ")";
        TrimSpacesKeeps(text);
        Some(TrimSpaces(text))
      else
        assert text == " " + suffix;
        TrimSpacesLeading(suffix);
        Some(TrimSpaces(text))
    else FormatActionDetails(action, rt)
  }

  /** What one decision needs: the cycle number, the amoeba, the food it may eat, the chat. */
  datatype Agent = Agent(
    cycle: int,
    amoeba: AmoebaValue,
    foods: seq<FoodValue>,
    settings: LLMSettings,
    replies: nat -> LLMClient.Transport,
    env: Env,
    rt: Runtime)

  function AcceptedEntry(c: Agent, action: Action, attempt: nat, messages: seq<Message>, raw: string): LogEntry {
    LogEntry(c.cycle, c.amoeba.id, action.Tag(), AcceptedDetails(action, attempt, c.rt), Some(messages), Some(raw))
  }

  function RejectedEntry(c: Agent, action: Action, rejection: string, messages: seq<Message>, raw: string): LogEntry {
    LogEntry(c.cycle, c.amoeba.id, "rejected", Some(action.Tag() + ": " + rejection), Some(messages), Some(raw))
  }

  const GIVE_UP_DETAILS: string := "gave up after " + NatToString(MAX_RETRIES) + " retries"

  function GiveUpEntry(c: Agent, messages: seq<Message>): LogEntry {
    LogEntry(c.cycle, c.amoeba.id, "idle", Some(GIVE_UP_DETAILS), Some(messages), None)
  }

  /** The entry of the `catch` block: the error's message and nothing else. */
  function ErrorEntry(c: Agent, message: string): LogEntry {
    LogEntry(c.cycle, c.amoeba.id, "error", Some(message), None, None)
  }

  /**
   * How a decision ends: the action, the entries it logged in order, how many chat calls it
   * made and whether it gave up after the last retry.
   */
  datatype Decision = Decision(action: Action, entries: seq<LogEntry>, calls: nat, gaveUp: bool)

  /** How one attempt ends: the call or the parse failed, the action was accepted, or refused. */
  datatype Attempt =
    | Broken(message: string)
    | Accepted(action: Action, raw: string)
    | Refused(action: Action, reason: string, raw: string)

  /** The attempts of one decision: the outcome of attempt `attempt` on a conversation. */
  type Step = (seq<Message>, nat) -> Attempt

  /**
   * One attempt: the chat call, the parse of its reply and the rules check. An accepted action
   * is never idle and passes the check; a refused one carries the check's reason.
   */
  function Try(c: Agent, messages: seq<Message>, attempt: nat): (r: Attempt)
    ensures Checked(c, r)
    ensures r.Refused? ==> ValidateAction(c.amoeba, r.action, c.foods, c.env, c.rt) == Some(r.reason)
  {
    match LLMClient.Chat(c.settings, messages, c.replies(attempt))
    case Failure(e) => Broken(e.Message())
    case Success(raw) =>
      match ResponseParser.Parse(raw, c.rt)
      case Failure(msg) => Broken(msg)
      case Success(action) =>
        match ValidateAction(c.amoeba, action, c.foods, c.env, c.rt)
        case None => Accepted(action, raw)
        case Some(reason) => Refused(action, reason, raw)
  }

  /** An accepted action is not idle and passes the rules check. */
  predicate Checked(c: Agent, t: Attempt) {
    t.Accepted? ==> !t.action.Idle? && ValidateAction(c.amoeba, t.action, c.foods, c.env, c.rt).None?
  }

  /** The attempts `getAmoebaAction` makes for this agent. */
  function Attempts(c: Agent): (step: Step)
    ensures forall m, i :: step(m, i) == Try(c, m, i)
  {
    (m: seq<Message>, i: nat) => Try(c, m, i)
  }

  /** The entry an attempt logs: the error, the accepted action, or the rejection. */
  function AttemptEntry(c: Agent, t: Attempt, messages: seq<Message>, attempt: nat): LogEntry {
    match t
    case Broken(message) => ErrorEntry(c, message)
    case Accepted(action, raw) => AcceptedEntry(c, action, attempt, messages, raw)
    case Refused(action, reason, raw) => RejectedEntry(c, action, reason, messages, raw)
  }

  /** The conversation for the next attempt: a refusal is answered, except after the last retry. */
  function Retried(messages: seq<Message>, attempt: nat, raw: string, reason: string): seq<Message> {
    if attempt < MAX_RETRIES then messages + [Message(Assistant, raw), Message(User, reason)]
    else messages
  }

  /**
   * The retry loop of `getAmoebaAction` from `attempt` on, with `messages` the conversation so
   * far. A failed call or a reply that does not parse ends the decision with an error entry.
   */
  function DecideFrom(c: Agent, step: Step, messages: seq<Message>, attempt: nat): Decision
    decreases MAX_RETRIES + 1 - attempt
  {
    if attempt > MAX_RETRIES then Decision(Idle, [GiveUpEntry(c, messages)], 0, true)
    else
      var t := step(messages, attempt);
      var e := AttemptEntry(c, t, messages, attempt);
      if t.Refused? then
        var rest := DecideFrom(c, step, Retried(messages, attempt, t.raw, t.reason), attempt + 1);
        Decision(rest.action, [e] + rest.entries, rest.calls + 1, rest.gaveUp)
      else Decision(if t.Accepted? then t.action else Idle, [e], 1, false)
  }

  /** `getAmoebaAction` from its first attempt. */
  function Decide(c: Agent, messages: seq<Message>): Decision {
    DecideFrom(c, Attempts(c), messages, 0)
  }

  /**
   * The shape of a decision started at `attempt`: at most MAX_RETRIES + 1 calls in all and one
   * entry per call plus the give-up entry, all for this cycle and amoeba; every entry but the
   * last records a rejection; the last is the accepted action, the error, or the give-up; an
   * action other than idle is one the rules accept, and giving up happens only after all calls
   * were rejected.
   */
  ghost predicate WellFormed(c: Agent, d: Decision, attempt: nat) {
    && attempt + d.calls <= MAX_RETRIES + 1
    && |d.entries| == d.calls + (if d.gaveUp then 1 else 0) && |d.entries| > 0
    && (forall k :: 0 <= k < |d.entries| ==> d.entries[k].cycle == c.cycle && d.entries[k].amoebaId == c.amoeba.id)
    && (forall k :: 0 <= k < |d.entries| - 1 ==> d.entries[k].action == "rejected")
    && (d.gaveUp ==>
          && d.action.Idle? && attempt + d.calls == MAX_RETRIES + 1
          && d.entries[|d.entries| - 1].action == "idle"
          && d.entries[|d.entries| - 1].details == Some(GIVE_UP_DETAILS))
    && (!d.action.Idle? ==>
          && !d.gaveUp && Checked(c, Accepted(d.action, ""))
          && d.entries[|d.entries| - 1].action == d.action.Tag())
    && (d.action.Idle? && !d.gaveUp ==> d.entries[|d.entries| - 1].action == "error")
  }

  /** A rejection in front of a well-formed rest of the decision keeps it well-formed. */
  lemma RejectionKeepsShape(c: Agent, e: LogEntry, rest: Decision, attempt: nat)
    requires WellFormed(c, rest, attempt + 1)
    requires e.action == "rejected" && e.cycle == c.cycle && e.amoebaId == c.amoeba.id
    ensures WellFormed(c, Decision(rest.action, [e] + rest.entries, rest.calls + 1, rest.gaveUp), attempt)
  {
  }

  /** A decision that gives up, fails or is accepted at once is well-formed. */
  lemma EndShape(c: Agent, step: Step, messages: seq<Message>, attempt: nat)
    requires attempt <= MAX_RETRIES + 1
    requires attempt <= MAX_RETRIES ==> !step(messages, attempt).Refused? && Checked(c, step(messages, attempt))
    ensures WellFormed(c, DecideFrom(c, step, messages, attempt), attempt)
  {
    if attempt <= MAX_RETRIES && step(messages, attempt).Accepted? {
      assert Checked(c, Accepted(step(messages, attempt).action, ""));
    }
  }

  /** Every decision whose attempts are checked is well-formed. */
  lemma {:induction false} DecideFromSpec(c: Agent, step: Step, messages: seq<Message>, attempt: nat)
    requires attempt <= MAX_RETRIES + 1
    requires forall m, i :: Checked(c, step(m, i))
    ensures WellFormed(c, DecideFrom(c, step, messages, attempt), attempt)
    decreases MAX_RETRIES + 1 - attempt
  {
    if attempt <= MAX_RETRIES && step(messages, attempt).Refused? {
      var t := step(messages, attempt);
      var next := Retried(messages, attempt, t.raw, t.reason);
      DecideFromSpec(c, step, next, attempt + 1);
      var rest := DecideFrom(c, step, next, attempt + 1);
      var e := RejectedEntry(c, t.action, t.reason, messages, t.raw);
      assert AttemptEntry(c, t, messages, attempt) == e;
      assert DecideFrom(c, step, messages, attempt) == Decision(rest.action, [e] + rest.entries, rest.calls + 1, rest.gaveUp);
      RejectionKeepsShape(c, e, rest, attempt);
    } else {
      EndShape(c, step, messages, attempt);
    }
  }

  /** The decision `getAmoebaAction` makes is well-formed. */
  lemma DecideSpec(c: Agent, messages: seq<Message>)
    ensures WellFormed(c, Decide(c, messages), 0)
  {
    DecideFromSpec(c, Attempts(c), messages, 0);
  }

  /** The messages an attempt adds, counted from `attempt`, for the `k`-th entry from there. */
  function Added(k: nat, attempt: nat): nat {
    if attempt + k <= MAX_RETRIES then k
    else if attempt <= MAX_RETRIES then MAX_RETRIES - attempt
    else 0
  }

  /**
   * The conversations a decision started at `attempt` logs: each starts with `messages`, and
   * each earlier rejection adds exactly two messages, the rejected reply (as the assistant) and
   * then the reason (as the user), except that the last retry adds none.
   */
  ghost predicate PromptsFollow(d: Decision, messages: seq<Message>, attempt: nat) {
    forall k :: 0 <= k < |d.entries| ==> Extends(d.entries[k], d.entries, messages, Added(k, attempt))
  }

  /**
   * The conversation logged with `e`, if any, is `messages` plus, for each of the first `n`
   * entries of `earlier`, its raw reply as the assistant and then a message from the user.
   */
  ghost predicate Extends(e: LogEntry, earlier: seq<LogEntry>, messages: seq<Message>, n: nat) {
    e.promptMessages.Some? ==>
      var pm := e.promptMessages.value;
      && |pm| == |messages| + 2 * n && pm[..|messages|] == messages && n <= |earlier|
      && forall j :: 0 <= j < n ==>
           && earlier[j].rawResponse.Some?
           && pm[|messages| + 2 * j] == Message(Assistant, earlier[j].rawResponse.value)
           && pm[|messages| + 2 * j + 1].role == User
  }

  /** A rejection logged with `messages` in front of a rest that follows its own conversation. */
  lemma RejectionKeepsPrompts(e: LogEntry, rest: Decision, messages: seq<Message>, attempt: nat, raw: string, reason: string)
    requires attempt <= MAX_RETRIES
    requires e.promptMessages == Some(messages) && e.rawResponse == Some(raw)
    requires PromptsFollow(rest, Retried(messages, attempt, raw, reason), attempt + 1)
    ensures PromptsFollow(Decision(rest.action, [e] + rest.entries, rest.calls + 1, rest.gaveUp), messages, attempt)
  {
    var next := Retried(messages, attempt, raw, reason);
    var d := Decision(rest.action, [e] + rest.entries, rest.calls + 1, rest.gaveUp);
    forall k | 0 <= k < |d.entries|
      ensures Extends(d.entries[k], d.entries, messages, Added(k, attempt))
    {
      if k > 0 {
        ExtendsStep(d.entries[k], rest.entries, e, messages, next, attempt, k, raw, reason);
      }
    }
  }

  /** One entry of the rest of a decision, seen from one attempt earlier. */
  lemma ExtendsStep(x: LogEntry, later: seq<LogEntry>, e: LogEntry, messages: seq<Message>, next: seq<Message>,
                    attempt: nat, k: nat, raw: string, reason: string)
    requires attempt <= MAX_RETRIES && 0 < k <= |later| && x == later[k - 1]
    requires e.rawResponse == Some(raw) && next == Retried(messages, attempt, raw, reason)
    requires Extends(x, later, next, Added(k - 1, attempt + 1))
    ensures Extends(x, [e] + later, messages, Added(k, attempt))
  {
    if x.promptMessages.Some? {
      var pm := x.promptMessages.value;
      var all := [e] + later;
      if attempt < MAX_RETRIES {
        assert Added(k, attempt) == Added(k - 1, attempt + 1) + 1;
        assert pm[..|next|] == next;
        assert pm[..|messages|] == next[..|messages|];
        forall j | 0 <= j < Added(k, attempt)
          ensures all[j].rawResponse.Some?
          ensures pm[|messages| + 2 * j] == Message(Assistant, all[j].rawResponse.value)
          ensures pm[|messages| + 2 * j + 1].role == User
        {
          if j > 0 {
            assert |messages| + 2 * j == |next| + 2 * (j - 1);
            assert all[j] == later[j - 1];
          } else {
            assert pm[|messages|] == next[|messages|];
            assert pm[|messages| + 1] == next[|messages| + 1];
          }
        }
      } else {
        assert Added(k, attempt) == 0;
      }
    }
  }

  /** Every decision's logged conversations follow the retries. */
  lemma {:induction false} DecideFromPrompts(c: Agent, step: Step, messages: seq<Message>, attempt: nat)
    requires attempt <= MAX_RETRIES + 1
    ensures PromptsFollow(DecideFrom(c, step, messages, attempt), messages, attempt)
    decreases MAX_RETRIES + 1 - attempt
  {
    if attempt <= MAX_RETRIES && step(messages, attempt).Refused? {
      var t := step(messages, attempt);
      var next := Retried(messages, attempt, t.raw, t.reason);
      DecideFromPrompts(c, step, next, attempt + 1);
      var rest := DecideFrom(c, step, next, attempt + 1);
      var e := RejectedEntry(c, t.action, t.reason, messages, t.raw);
      RejectionKeepsPrompts(e, rest, messages, attempt, t.raw, t.reason);
    }
  }

  /**
   * From the first attempt: the `k`-th logged conversation holds the initial one plus two
   * messages for each of the first `min(k, MAX_RETRIES)` rejections.
   */
  lemma DecidePrompts(c: Agent, messages: seq<Message>)
    ensures var d := Decide(c, messages);
      forall k :: 0 <= k < |d.entries| && d.entries[k].promptMessages.Some? ==>
        var pm := d.entries[k].promptMessages.value;
        |pm| == |messages| + 2 * Min(k as real, MAX_RETRIES as real).Floor && pm[..|messages|] == messages
  {
    DecideFromPrompts(c, Attempts(c), messages, 0);
    var d := Decide(c, messages);
    forall k | 0 <= k < |d.entries| && d.entries[k].promptMessages.Some?
      ensures Added(k, 0) == Min(k as real, MAX_RETRIES as real).Floor
    {
    }
  }

  // ----- the decision log -----

  /** The log after adding the entries one by one with `addLogEntry`. */
  function AppendAll(log: seq<LogEntry>, entries: seq<LogEntry>): seq<LogEntry> {
    if entries == [] then log
    else Store.LogAppended(AppendAll(log, entries[..|entries| - 1]), entries[|entries| - 1])
  }

  /** The cap is kept, and the log ends with the added entries whenever they fit under it. */
  lemma AppendAllSpec(log: seq<LogEntry>, entries: seq<LogEntry>)
    requires |log| <= Store.MAX_LOG_ENTRIES
    ensures var r := AppendAll(log, entries);
      && |r| <= Store.MAX_LOG_ENTRIES
      && (|entries| <= Store.MAX_LOG_ENTRIES ==> |r| >= |entries| && r[|r| - |entries|..] == entries)
  {
    AppendAllCap(log, entries);
    if |entries| <= Store.MAX_LOG_ENTRIES {
      AppendAllSuffix(log, entries);
    }
  }

  lemma {:induction false} AppendAllCap(log: seq<LogEntry>, entries: seq<LogEntry>)
    requires |log| <= Store.MAX_LOG_ENTRIES
    ensures |AppendAll(log, entries)| <= Store.MAX_LOG_ENTRIES
  {
    if entries != [] {
      AppendAllCap(log, entries[..|entries| - 1]);
    }
  }

  lemma {:induction false} AppendAllSuffix(log: seq<LogEntry>, entries: seq<LogEntry>)
    requires |log| <= Store.MAX_LOG_ENTRIES && |entries| <= Store.MAX_LOG_ENTRIES
    ensures var r := AppendAll(log, entries); |r| >= |entries| && r[|r| - |entries|..] == entries
  {
    if entries != [] {
      var init := entries[..|entries| - 1];
      var e := entries[|entries| - 1];
      AppendAllSuffix(log, init);
      AppendAllCap(log, init);
      assert entries == init + [e];
      SuffixPushed(AppendAll(log, init), init, e);
    }
  }

  /** A log ending with `init` ends with `init + [e]` once `e` is added, whether or not the oldest entry goes. */
  lemma SuffixPushed(prev: seq<LogEntry>, init: seq<LogEntry>, e: LogEntry)
    requires |prev| <= Store.MAX_LOG_ENTRIES && |init| <= |prev| && |init| < Store.MAX_LOG_ENTRIES
    requires prev[|prev| - |init|..] == init
    ensures var r := Store.LogAppended(prev, e); |r| >= |init| + 1 && r[|r| - |init| - 1..] == init + [e]
  {
    var r := Store.LogAppended(prev, e);
    var p := if |prev| + 1 > Store.MAX_LOG_ENTRIES then prev[1..] else prev;
    assert r == p + [e];
    assert p[|p| - |init|..] == init;
    assert r[|r| - |init| - 1..] == p[|p| - |init|..] + [e];
  }

  /** Adding two runs of entries is adding their concatenation. */
  lemma {:induction false} AppendAllConcat(log: seq<LogEntry>, a: seq<LogEntry>, b: seq<LogEntry>)
    ensures AppendAll(AppendAll(log, a), b) == AppendAll(log, a + b)
  {
    if b != [] {
      AppendAllConcat(log, a, b[..|b| - 1]);
      assert (a + b)[..|a + b| - 1] == a + b[..|b| - 1];
    } else {
      assert a + b == a;
    }
  }
}

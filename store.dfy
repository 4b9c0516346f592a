/**
 * The shared game store: LLM and game settings with their defaults and their persisted form,
 * the HUD statistics and the decision log, which keeps only the newest 200 entries.
 */
module Store {
  import opened Wrappers
  import opened Js
  import opened Types
  import opened Constants

  const MAX_LOG_ENTRIES: nat := 200

  const DEFAULT_SYSTEM_PROMPT: string :=
    "You are the brain of a single-celled amoeba living on a microscopic 2D surface. Each cycle you receive your current position, energy level, and a description of nearby objects. You must respond with a single JSON object choosing one action.\n"
    + "\n"
    + "Available actions:\n"
    + "- move: Move in one of 8 compass directions. Distance must be 0.5-5 body lengths per cycle (minimum 0.5). Costs 0.1 energy per body-length.\n"
    + "  Directions: \"right\", \"up-right\", \"up\", \"up-left\", \"left\", \"down-left\", \"down\", \"down-right\"\n"
    + "- feed: Consume food at your current location. Gains 1 energy. Only works if you are on or near a food source.\n"
    + "- divide: Split into two amoebas. Requires 90+ energy. Each child gets half your energy.\n"
    + "\n"
    + "Response format (respond with ONLY a JSON object, no other text):\n"
    + "{\"action\": \"move\", \"direction\": \"up-right\", \"distance\": 1.5}\n"
    + "{\"action\": \"feed\", \"direction\": null, \"distance\": null}\n"
    + "{\"action\": \"divide\", \"direction\": null, \"distance\": null}\n"
    + "\n"
    + "Survival tips:\n"
    + "- Seek food (green) to gain energy. You must be close to or on top of food to feed. Food and poison decay 0.1 energy per cycle and disappear when below 0.1.\n"
    + "- Avoid poison (purple) — it drains 3 energy per cycle passively.\n"
    + "- Avoid enemies (red) — they drain 2 energy per cycle if they are close.\n"
    + "- If your energy reaches 0, you die.\n"
    + "- If you accumulate 90+ energy, consider dividing to propagate.\n"
    + "- Be strategic: weigh the energy cost of movement against potential gains."

  function DefaultLLMSettings(): LLMSettings {
    LLMSettings("https://api.openai.com/v1", "", "gpt-4o-mini", 0.2, 150, DEFAULT_SYSTEM_PROMPT)
  }

  function DefaultGameSettings(): GameSettings {
    GameSettings(DEFAULT_CYCLE_INTERVAL_MS, true, 0)
  }

  /** `parsed.<section>.<key>`, None when either is missing. */
  function StoredField(section: Option<Json>, key: string): Option<Json> {
    if section.Some? then Property(section.value, key) else None
  }

  /** A stored string field, or the default when it is missing or not a string. */
  function StringOr(section: Option<Json>, key: string, default: string): string {
    match StoredField(section, key)
    case Some(JString(s)) => s
    case _ => default
  }

  function RealOr(section: Option<Json>, key: string, default: real): real {
    match StoredField(section, key)
    case Some(JNumber(n)) => n
    case _ => default
  }

  /** A stored whole number; a fractional or non-numeric value keeps the default. */
  function IntOr(section: Option<Json>, key: string, default: int): int {
    match StoredField(section, key)
    case Some(JNumber(n)) => if n.Floor as real == n then n.Floor else default
    case _ => default
  }

  function BoolOr(section: Option<Json>, key: string, default: bool): bool {
    match StoredField(section, key)
    case Some(JBool(b)) => b
    case _ => default
  }

  /** `{ ...getDefaultLLMSettings(), ...parsed.llm }`, field by field. */
  function MergeLLM(section: Option<Json>): LLMSettings {
    var d := DefaultLLMSettings();
    LLMSettings(
      StringOr(section, "apiUrl", d.apiUrl),
      StringOr(section, "apiKey", d.apiKey),
      StringOr(section, "model", d.model),
      RealOr(section, "temperature", d.temperature),
      IntOr(section, "maxTokens", d.maxTokens),
      StringOr(section, "systemPrompt", d.systemPrompt))
  }

  /** `{ ...getDefaultGameSettings(), ...parsed.game }`, field by field. */
  function MergeGame(section: Option<Json>): GameSettings {
    var d := DefaultGameSettings();
    GameSettings(
      IntOr(section, "cycleIntervalMs", d.cycleIntervalMs),
      BoolOr(section, "showDebugOverlays", d.showDebugOverlays),
      IntOr(section, "randomSeed", d.randomSeed))
  }

  /**
   * `loadSettings`: `stored` is what local storage holds under the settings key. Nothing
   * stored, an empty text or a text `JSON.parse` rejects gives the defaults.
   */
  function LoadSettings(stored: Option<string>, rt: Runtime): (r: (LLMSettings, GameSettings))
    ensures stored.None? || stored == Some("") ==> r == (DefaultLLMSettings(), DefaultGameSettings())
    ensures stored.Some? && rt.parseJson(stored.value).None? ==> r == (DefaultLLMSettings(), DefaultGameSettings())
  {
    if stored.None? || stored.value == "" then (DefaultLLMSettings(), DefaultGameSettings())
    else
      var parsed := rt.parseJson(stored.value);
      if parsed.None? then (DefaultLLMSettings(), DefaultGameSettings())
      else (MergeLLM(Property(parsed.value, "llm")), MergeGame(Property(parsed.value, "game")))
  }

  /** A stored section without any of the fields, or no section at all, keeps every default. */
  lemma MergeMissing(section: Option<Json>)
    requires section.None? || section == Some(JObject([]))
    ensures MergeLLM(section) == DefaultLLMSettings()
    ensures MergeGame(section) == DefaultGameSettings()
  {
  }

  /** The persisted form of the LLM settings, in the settings' own key order. */
  function LLMJson(llm: LLMSettings): Json {
    JObject([
      ("apiUrl", JString(llm.apiUrl)),
      ("apiKey", JString(llm.apiKey)),
      ("model", JString(llm.model)),
      ("temperature", JNumber(llm.temperature)),
      ("maxTokens", JNumber(llm.maxTokens as real)),
      ("systemPrompt", JString(llm.systemPrompt))])
  }

  function GameJson(game: GameSettings): Json {
    JObject([
      ("cycleIntervalMs", JNumber(game.cycleIntervalMs as real)),
      ("showDebugOverlays", JBool(game.showDebugOverlays)),
      ("randomSeed", JNumber(game.randomSeed as real))])
  }

  /** What the store's watcher writes: `{ llm: {...}, game: {...} }` as a JSON value. */
  function SavedJson(llm: LLMSettings, game: GameSettings): Json {
    JObject([("llm", LLMJson(llm)), ("game", GameJson(game))])
  }

  lemma LLMTextFieldsLoadBack(llm: LLMSettings, d: LLMSettings)
    ensures StringOr(Some(LLMJson(llm)), "apiUrl", d.apiUrl) == llm.apiUrl
    ensures StringOr(Some(LLMJson(llm)), "apiKey", d.apiKey) == llm.apiKey
  {
    GetAt(LLMJson(llm).members, 0, "apiUrl");
    GetAt(LLMJson(llm).members, 1, "apiKey");
  }

  lemma LLMModelFieldsLoadBack(llm: LLMSettings, d: LLMSettings)
    ensures StringOr(Some(LLMJson(llm)), "model", d.model) == llm.model
    ensures RealOr(Some(LLMJson(llm)), "temperature", d.temperature) == llm.temperature
  {
    GetAt(LLMJson(llm).members, 2, "model");
    GetAt(LLMJson(llm).members, 3, "temperature");
  }

  lemma LLMPromptFieldsLoadBack(llm: LLMSettings, d: LLMSettings)
    ensures IntOr(Some(LLMJson(llm)), "maxTokens", d.maxTokens) == llm.maxTokens
    ensures StringOr(Some(LLMJson(llm)), "systemPrompt", d.systemPrompt) == llm.systemPrompt
  {
    GetAt(LLMJson(llm).members, 4, "maxTokens");
    assert (llm.maxTokens as real).Floor == llm.maxTokens;
    GetAt(LLMJson(llm).members, 5, "systemPrompt");
  }

  lemma LLMSectionLoadsBack(llm: LLMSettings)
    ensures MergeLLM(Some(LLMJson(llm))) == llm
  {
    var d := DefaultLLMSettings();
    LLMTextFieldsLoadBack(llm, d);
    LLMModelFieldsLoadBack(llm, d);
    LLMPromptFieldsLoadBack(llm, d);
  }

  lemma GameSectionLoadsBack(game: GameSettings)
    ensures MergeGame(Some(GameJson(game))) == game
  {
    var section := Some(GameJson(game));
    var fs := GameJson(game).members;
    GetAt(fs, 0, "cycleIntervalMs");
    assert (game.cycleIntervalMs as real).Floor == game.cycleIntervalMs;
    assert IntOr(section, "cycleIntervalMs", 0) == game.cycleIntervalMs;
    GetAt(fs, 1, "showDebugOverlays");
    GetAt(fs, 2, "randomSeed");
    assert (game.randomSeed as real).Floor == game.randomSeed;
    assert IntOr(section, "randomSeed", 0) == game.randomSeed;
  }

  /** Settings the watcher saved load back unchanged. */
  lemma SavedSettingsLoadBack(llm: LLMSettings, game: GameSettings, text: string, rt: Runtime)
    requires text != "" && rt.parseJson(text) == Some(SavedJson(llm, game))
    ensures LoadSettings(Some(text), rt) == (llm, game)
  {
    GetAt(SavedJson(llm, game).members, 0, "llm");
    GetAt(SavedJson(llm, game).members, 1, "game");
    LLMSectionLoadsBack(llm);
    GameSectionLoadsBack(game);
  }

  /** The log after `addLogEntry`: pushed at the end, the oldest dropped when over the cap. */
  function LogAppended(log: seq<LogEntry>, entry: LogEntry): seq<LogEntry> {
    var pushed := log + [entry];
    if |pushed| > MAX_LOG_ENTRIES then pushed[1..] else pushed
  }

  /**
   * The entry always ends the log; below the cap nothing is removed; at the cap exactly the
   * oldest entry goes; the order of the kept entries never changes, and the cap is kept.
   */
  lemma LogAppendedSpec(log: seq<LogEntry>, entry: LogEntry)
    ensures var r := LogAppended(log, entry);
      && |r| > 0 && r[|r| - 1] == entry
      && (|log| < MAX_LOG_ENTRIES ==> r == log + [entry])
      && (|log| == MAX_LOG_ENTRIES ==> r == log[1..] + [entry])
      && (exists k :: 0 <= k <= 1 && r == (log + [entry])[k..])
      && (|log| <= MAX_LOG_ENTRIES ==> |r| <= MAX_LOG_ENTRIES)
  {
    var r := LogAppended(log, entry);
    if |log| + 1 > MAX_LOG_ENTRIES {
      assert r == (log + [entry])[1..];
    } else {
      assert r == (log + [entry])[0..];
    }
  }

  /** The HUD statistics the store starts with. */
  function InitialStats(): GameStats {
    GameStats(0, 1, 0, 0, 0, STARTING_ENERGY, [], false, 0, 0)
  }

  class GameStore {
    var llmSettings: LLMSettings
    var gameSettings: GameSettings
    var stats: GameStats
    var selectedAmoebaId: Option<string>
    var llmLog: seq<LogEntry>

    /** The log never holds more than `MAX_LOG_ENTRIES` entries. */
    predicate Valid()
      reads this
    {
      |llmLog| <= MAX_LOG_ENTRIES
    }

    /** The store as created at start-up, from the loaded settings. */
    constructor(stored: Option<string>, rt: Runtime)
      ensures (llmSettings, gameSettings) == LoadSettings(stored, rt)
      ensures stats == InitialStats() && selectedAmoebaId.None? && llmLog == []
      ensures Valid()
    {
      var saved := LoadSettings(stored, rt);
      llmSettings := saved.0;
      gameSettings := saved.1;
      stats := InitialStats();
      selectedAmoebaId := None;
      llmLog := [];
    }

    method AddLogEntry(entry: LogEntry)
      requires Valid()
      modifies this
      ensures Valid()
      ensures llmLog == LogAppended(old(llmLog), entry)
      ensures llmSettings == old(llmSettings) && gameSettings == old(gameSettings)
      ensures stats == old(stats) && selectedAmoebaId == old(selectedAmoebaId)
    {
      llmLog := llmLog + [entry];
      if |llmLog| > MAX_LOG_ENTRIES {
        llmLog := llmLog[1..];
      }
    }

    method ClearLog()
      modifies this
      ensures llmLog == [] && Valid()
      ensures llmSettings == old(llmSettings) && gameSettings == old(gameSettings)
      ensures stats == old(stats) && selectedAmoebaId == old(selectedAmoebaId)
    {
      llmLog := [];
    }

    /** Every LLM and game setting goes back to its default; nothing else changes. */
    method ResetDefaults()
      modifies this
      ensures llmSettings == DefaultLLMSettings() && gameSettings == DefaultGameSettings()
      ensures stats == old(stats) && selectedAmoebaId == old(selectedAmoebaId) && llmLog == old(llmLog)
    {
      llmSettings := DefaultLLMSettings();
      gameSettings := DefaultGameSettings();
    }

    /** Only the system prompt goes back to its default. */
    method ResetSystemPrompt()
      modifies this
      ensures llmSettings == old(llmSettings).(systemPrompt := DEFAULT_SYSTEM_PROMPT)
      ensures gameSettings == old(gameSettings)
      ensures stats == old(stats) && selectedAmoebaId == old(selectedAmoebaId) && llmLog == old(llmLog)
    {
      llmSettings := llmSettings.(systemPrompt := DefaultLLMSettings().systemPrompt);
    }
  }
}

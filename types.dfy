/**
 * The records exchanged between the simulation, the prompt layer and the store
 * (src/types/index.ts, with the fields the store and the scene actually use).
 */
module Types {
  import opened Wrappers
  import opened Geometry

  /** An amoeba's decision; `direction` indexes the direction table, `distance` is in body lengths. */
  datatype Action = Move(direction: int, distance: real) | Feed | Divide | Idle {
    /** The `action` tag of the decision. */
    function Tag(): string {
      match this
      case Move(_, _) => "move"
      case Feed => "feed"
      case Divide => "divide"
      case Idle => "idle"
    }
  }

  datatype Role = System | User | Assistant

  datatype Message = Message(role: Role, content: string)

  datatype ObjectKind = FoodKind | PoisonKind | EnemyKind | AmoebaKind {
    function Name(): string {
      match this
      case FoodKind => "food"
      case PoisonKind => "poison"
      case EnemyKind => "enemy"
      case AmoebaKind => "amoeba"
    }
  }

  /** A value of a `details` record: a number or a string. */
  datatype DetailValue = Num(n: real) | Str(s: string)

  /** One visible object: offset from the viewer and distance in centimetres. */
  datatype NearbyObject = NearbyObject(
    kind: ObjectKind,
    relativePosition: Pos,
    distance: real,
    details: Option<seq<(string, DetailValue)>>)

  /** What the prompt and the log see of an amoeba (`getState()`): a position in centimetres. */
  datatype AmoebaState = AmoebaState(id: string, position: Pos, energy: real, alive: bool)

  datatype LLMSettings = LLMSettings(
    apiUrl: string,
    apiKey: string,
    model: string,
    temperature: real,
    maxTokens: int,
    systemPrompt: string)

  datatype GameSettings = GameSettings(cycleIntervalMs: int, showDebugOverlays: bool, randomSeed: int)

  /** One line of the amoeba list in the statistics panel. */
  datatype AmoebaInfo = AmoebaInfo(id: string, energy: real)

  datatype GameStats = GameStats(
    cycleCount: int,
    amoebaCount: nat,
    foodCount: nat,
    enemyCount: nat,
    poisonCount: nat,
    selectedAmoebaEnergy: real,
    amoebas: seq<AmoebaInfo>,
    running: bool,
    promptTokens: int,
    generatedTokens: int)

  /** An entry of the decision log. */
  datatype LogEntry = LogEntry(
    cycle: int,
    amoebaId: string,
    action: string,
    details: Option<string>,
    promptMessages: Option<seq<Message>>,
    rawResponse: Option<string>)
}

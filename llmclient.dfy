/**
 * The chat-completion client: the endpoint URL, the request it sends and how the reply becomes
 * the assistant's text or an error. The HTTP exchange itself is a parameter (`Transport`).
 */
module LLMClient {
  import opened Wrappers
  import opened Text
  import opened Js
  import opened Types
  import ResponseParser

  /** A character `\w` matches. */
  predicate IsWordChar(c: char) {
    ('a' <= c <= 'z') || ('A' <= c <= 'Z') || ('0' <= c <= '9') || c == '_'
  }

  /** `\b` before position `i`, where the next character is a word character. */
  predicate WordStart(s: string, i: nat)
    requires i <= |s|
  {
    i == 0 || !IsWordChar(s[i - 1])
  }

  /** `\b` after position `i`, where the previous character is a word character. */
  predicate WordEnd(s: string, i: nat)
    requires i <= |s|
  {
    i == |s| || !IsWordChar(s[i])
  }

  /**
   * One of the three reasoning-model patterns matches at `i`: `\bo[1-9]\b`, `\bo[1-9][-_]`
   * or `\bgpt-oss\b`.
   */
  predicate ReasoningMatchAt(s: string, i: nat)
    requires i < |s|
  {
    || (&& i + 2 <= |s| && s[i] == 'o' && '1' <= s[i + 1] <= '9' && WordStart(s, i)
        && (WordEnd(s, i + 2) || s[i + 2] == '-' || s[i + 2] == '_'))
    || (&& i + 7 <= |s| && s[i..i + 7] == "gpt-oss" && WordStart(s, i) && WordEnd(s, i + 7))
  }

  /** `REASONING_MODEL_PATTERNS.some(re => re.test(s))`, scanning from `from`. */
  function MatchesFrom(s: string, from: nat): (r: bool)
    ensures r <==> exists i :: from <= i < |s| && ReasoningMatchAt(s, i)
    decreases |s| - from
  {
    if from >= |s| then false
    else ReasoningMatchAt(s, from) || MatchesFrom(s, from + 1)
  }

  /** `isReasoningModel`: the patterns are matched against the lowercased name. */
  function IsReasoningModel(model: string): (r: bool)
    ensures r <==> var lower := AsciiLower(model); exists i :: 0 <= i < |lower| && ReasoningMatchAt(lower, i)
  {
    MatchesFrom(AsciiLower(model), 0)
  }

  /** The test ignores letter case: a name and its lower case are classified alike. */
  lemma ReasoningIgnoresCase(model: string)
    ensures IsReasoningModel(AsciiLower(model)) == IsReasoningModel(model)
  {
    AsciiLowerIdempotent(model);
  }

  /**
   * A name that is `gpt-oss`, or starts with it and goes on with a non-word character, and
   * holds no capital letter (`gpt-oss-20b`, say) is a reasoning model.
   */
  lemma GptOssMatches(rest: string)
    requires (rest == [] || !IsWordChar(rest[0])) && forall i :: 0 <= i < |rest| ==> !('A' <= rest[i] <= 'Z')
    ensures IsReasoningModel("gpt-oss" + rest)
  {
    var g := "gpt-oss" + rest;
    AsciiLowerKeeps(g);
    assert g[0..7] == "gpt-oss";
    assert rest != [] ==> g[7] == rest[0];
    assert ReasoningMatchAt(g, 0);
  }

  /**
   * The endpoint: the configured URL cut before its run of trailing slashes, then
   * `/chat/completions`.
   */
  function ChatUrl(apiUrl: string): (url: string)
    ensures exists k ::
      && 0 <= k <= |apiUrl| && url == apiUrl[..k] + "/chat/completions"
      && (k == 0 || apiUrl[k - 1] != '/')
      && (forall i :: k <= i < |apiUrl| ==> apiUrl[i] == '/')
  {
    var base := StripTrailing(apiUrl, '/');
    assert base == apiUrl[..|base|];
    base + "/chat/completions"
  }

  /** Any number of trailing slashes on the configured URL gives the same endpoint. */
  lemma ChatUrlIgnoresTrailingSlashes(apiUrl: string, n: nat)
    ensures ChatUrl(apiUrl + Repeat('/', n)) == ChatUrl(apiUrl)
  {
    StripTrailingRepeat(apiUrl, '/', n);
  }

  /** The direction labels of the response schema, with `null` left out. */
  const SCHEMA_DIRECTIONS: seq<string> :=
    ["right", "upper-right", "upper-left", "left", "lower-left", "lower-right"]

  /** `ACTION_RESPONSE_FORMAT`, the strict JSON schema every request carries. */
  const ACTION_RESPONSE_FORMAT: Json :=
    JObject([
      ("type", JString("json_schema")),
      ("json_schema", JObject([
        ("name", JString("amoeba_action")),
        ("strict", JBool(true)),
        ("schema", JObject([
          ("type", JString("object")),
          ("properties", JObject([
            ("action", JObject([
              ("type", JString("string")),
              ("enum", JArray([JString("move"), JString("feed"), JString("divide")]))])),
            ("direction", JObject([
              ("enum", JArray([JString("right"), JString("upper-right"), JString("upper-left"), JString("left"),
                              JString("lower-left"), JString("lower-right"), JNull]))])),
            ("distance", JObject([("type", JArray([JString("number"), JString("null")]))]))])),
          ("required", JArray([JString("action"), JString("direction"), JString("distance")])),
          ("additionalProperties", JBool(false))]))]))])

  /**
   * Of the six directions the schema offers, only "right" and "left" are keys the response
   * parser knows; a reply that names any of the four diagonals is rejected as invalid.
   */
  lemma SchemaDiagonalsRejected()
    ensures forall i :: 0 <= i < |SCHEMA_DIRECTIONS| ==>
      (ResponseParser.DirectionIndex(SCHEMA_DIRECTIONS[i]).Some? <==> SCHEMA_DIRECTIONS[i] in ["right", "left"])
  {
    forall i | 0 <= i < |SCHEMA_DIRECTIONS|
      ensures ResponseParser.DirectionIndex(SCHEMA_DIRECTIONS[i]).Some? <==> SCHEMA_DIRECTIONS[i] in ["right", "left"]
    {
      assert i == 0 || i == 1 || i == 2 || i == 3 || i == 4 || i == 5;
    }
  }

  /** The JSON body of a chat request; an absent field is None. */
  datatype RequestBody = RequestBody(
    model: string,
    messages: seq<Message>,
    responseFormat: Json,
    temperature: Option<real>,
    maxTokens: Option<int>,
    maxCompletionTokens: Option<int>)

  /** A POST request: endpoint, `Authorization` header and body. */
  datatype Request = Request(url: string, authorization: string, body: RequestBody)

  /**
   * The body: reasoning models get no temperature and `max_completion_tokens`, all others the
   * temperature and `max_tokens`.
   */
  function RequestBodyFor(settings: LLMSettings, messages: seq<Message>): (b: RequestBody)
    ensures b.model == settings.model && b.messages == messages
    ensures b.responseFormat == ACTION_RESPONSE_FORMAT
    ensures b.temperature.Some? <==> !IsReasoningModel(settings.model)
    ensures b.temperature.Some? ==> b.temperature.value == settings.temperature
    ensures b.maxCompletionTokens.Some? <==> IsReasoningModel(settings.model)
    ensures b.maxTokens.Some? <==> !b.maxCompletionTokens.Some?
    ensures b.maxTokens.Some? ==> b.maxTokens.value == settings.maxTokens
    ensures b.maxCompletionTokens.Some? ==> b.maxCompletionTokens.value == settings.maxTokens
  {
    var reasoning := IsReasoningModel(settings.model);
    RequestBody(
      settings.model,
      messages,
      ACTION_RESPONSE_FORMAT,
      if !reasoning then Some(settings.temperature) else None,
      if reasoning then None else Some(settings.maxTokens),
      if reasoning then Some(settings.maxTokens) else None)
  }

  /** The request `chat` sends: the chat endpoint, the bearer token and the body. */
  function RequestFor(settings: LLMSettings, messages: seq<Message>): (r: Request)
    ensures r.url == ChatUrl(settings.apiUrl)
    ensures r.authorization == "Bearer " + settings.apiKey
    ensures r.body == RequestBodyFor(settings, messages)
  {
    Request(ChatUrl(settings.apiUrl), "Bearer " + settings.apiKey, RequestBodyFor(settings, messages))
  }

  /**
   * What the server sent back: the status, the body text (empty when reading it fails) and
   * what decoding the body came to.
   */
  datatype Reply = Reply(ok: bool, status: int, text: string, body: Decoded)

  /**
   * `Throws(message)`: `response.json()` rejected (the body is not JSON), or reading
   * `data.choices` failed (the body is `null`); `message` is the runtime's error message.
   * `Choices(contents)`: the `choices` of the body, empty when it has none; each is the
   * content of the choice's message, or the runtime's error message when it has no message.
   */
  datatype Decoded = Throws(message: string) | Choices(contents: seq<Result<string, string>>)

  /** The ways `chat` throws; `Thrown` carries the runtime's own error message. */
  datatype ChatError = ApiError(status: int, text: string) | NoChoices | Thrown(message: string) {
    function Message(): string {
      match this
      case ApiError(status, text) => "LLM API error " + IntToString(status) + ": " + text
      case NoChoices => "LLM returned no choices"
      case Thrown(message) => message
    }
  }

  /** The reply's first choice, or the error `chat` throws. */
  function ReplyOutcome(reply: Reply): (r: Result<string, ChatError>)
    ensures !reply.ok <==> r == Failure(ApiError(reply.status, reply.text))
    ensures r.Success? <==>
      reply.ok && reply.body.Choices? && |reply.body.contents| > 0 && reply.body.contents[0].Success?
    ensures r.Success? ==> r.value == reply.body.contents[0].value
    ensures reply.ok && reply.body.Throws? ==> r == Failure(Thrown(reply.body.message))
    ensures reply.ok && reply.body == Choices([]) ==> r == Failure(NoChoices)
    ensures reply.ok && reply.body.Choices? && |reply.body.contents| > 0 && reply.body.contents[0].Failure? ==>
      r == Failure(Thrown(reply.body.contents[0].error))
  {
    if !reply.ok then Failure(ApiError(reply.status, reply.text))
    else match reply.body
      case Throws(message) => Failure(Thrown(message))
      case Choices(contents) =>
        if |contents| == 0 then Failure(NoChoices)
        else match contents[0]
          case Success(content) => Success(content)
          case Failure(message) => Failure(Thrown(message))
  }

  /** The network: the reply a request gets. */
  type Transport = Request -> Reply

  /**
   * `chat`: the reply is the one to the request built from the settings; an error status
   * throws the API error, and otherwise the first choice's content comes back when there is one.
   */
  function Chat(settings: LLMSettings, messages: seq<Message>, transport: Transport): (r: Result<string, ChatError>)
    ensures var reply := transport(Request(ChatUrl(settings.apiUrl), "Bearer " + settings.apiKey, RequestBodyFor(settings, messages)));
      && (!reply.ok <==> r == Failure(ApiError(reply.status, reply.text)))
      && (r.Success? <==>
            reply.ok && reply.body.Choices? && |reply.body.contents| > 0 && reply.body.contents[0].Success?)
      && (r.Success? ==> r.value == reply.body.contents[0].value)
  {
    ReplyOutcome(transport(RequestFor(settings, messages)))
  }
}

/**
 * The response parser: it cuts the first brace-delimited text out of a model reply, parses it
 * with the runtime's `JSON.parse`, and turns the object into one of the three actions an
 * amoeba may take. Every reply it cannot use is an error, never an idle action.
 */
module ResponseParser {
  import opened Wrappers
  import opened Text
  import opened Js
  import opened Types
  import opened Geometry
  import opened Constants

  /** The keys of `DIRECTION_MAP`, each at the index the map gives it. */
  const DIRECTION_KEYS: seq<string> :=
    ["right", "up-right", "up", "up-left", "left", "down-left", "down", "down-right"]

  /** `DIRECTION_MAP[key]` restricted to the map's own keys. */
  function DirectionIndex(key: string): (r: Option<nat>)
    ensures r.Some? <==> key in DIRECTION_KEYS
    ensures r.Some? ==> r.value < |DIRECTION_KEYS| && DIRECTION_KEYS[r.value] == key
  {
    if key == "right" then Some(0)
    else if key == "up-right" then Some(1)
    else if key == "up" then Some(2)
    else if key == "up-left" then Some(3)
    else if key == "left" then Some(4)
    else if key == "down-left" then Some(5)
    else if key == "down" then Some(6)
    else if key == "down-right" then Some(7)
    else None
  }

  /** Every key of the table maps to its own position, 0 through 7. */
  lemma DirectionTable()
    ensures |DIRECTION_KEYS| == 8
    ensures forall i :: 0 <= i < |DIRECTION_KEYS| ==> DirectionIndex(DIRECTION_KEYS[i]) == Some(i)
  {
    forall i | 0 <= i < |DIRECTION_KEYS|
      ensures DirectionIndex(DIRECTION_KEYS[i]) == Some(i)
    {
      assert DIRECTION_KEYS[i] == ["right", "up-right", "up", "up-left", "left", "down-left", "down", "down-right"][i];
    }
  }

  /** The first index at or after `from` holding `c`. */
  function FirstIndexOf(s: string, c: char, from: nat): (r: Option<nat>)
    ensures r.None? ==> forall k :: from <= k < |s| ==> s[k] != c
    ensures r.Some? ==> from <= r.value < |s| && s[r.value] == c
    ensures r.Some? ==> forall k :: from <= k < r.value ==> s[k] != c
    decreases |s| - from
  {
    if from >= |s| then None
    else if s[from] == c then Some(from)
    else FirstIndexOf(s, c, from + 1)
  }

  /**
   * `text.match(/\{[^}]*\}/)`: the leftmost match starts at the first '{' and runs to the
   * first '}' after it, so a nested object is cut short at its first closing brace.
   */
  function ExtractJson(text: string): (r: Option<string>)
    ensures r.None? <==> !exists i, j :: 0 <= i < j < |text| && text[i] == '{' && text[j] == '}'
    ensures r.Some? ==> exists i, j ::
      && 0 <= i < j < |text| && r.value == text[i..j + 1]
      && text[i] == '{' && text[j] == '}'
      && (forall k :: 0 <= k < i ==> text[k] != '{')
      && (forall k :: i < k < j ==> text[k] != '}')
  {
    var open := FirstIndexOf(text, '{', 0);
    if open.None? then None
    else
      var close := FirstIndexOf(text, '}', open.value + 1);
      if close.None? then None
      else Some(text[open.value..close.value + 1])
  }

  /** `String(data.direction ?? '').toLowerCase()`. */
  function DirectionKey(obj: Json, rt: Runtime): string {
    var v := Property(obj, "direction");
    AsciiLower(if v.None? || v == Some(JNull) then "" else ToJsString(v.value, rt))
  }

  /** `Number(data.distance)`. */
  function Distance(obj: Json, rt: Runtime): JsNumber {
    ToJsNumber(Property(obj, "distance"), rt)
  }

  /** The four conditions `validate` puts on a move, lines 51-54. */
  predicate MoveFieldsValid(obj: Json, rt: Runtime) {
    var d := Distance(obj, rt);
    && DirectionIndex(DirectionKey(obj, rt)).Some?
    && d.IsFinite()
    && MIN_MOVE_BODY_LENGTHS <= d.value <= MAX_MOVE_BODY_LENGTHS
  }

  /** `validate`: the action an object names, or idle for everything it cannot use. */
  function Validate(obj: Json, rt: Runtime): Action {
    if !Truthy(obj) || !IsObjectType(obj) then Idle
    else
      var action := Property(obj, "action");
      if action == Some(JString("move")) then
        if MoveFieldsValid(obj, rt) then
          var d := Distance(obj, rt).value;
          Move(DirectionIndex(DirectionKey(obj, rt)).value,
               Max(MIN_MOVE_BODY_LENGTHS, Min(d, MAX_MOVE_BODY_LENGTHS)))
        else Idle
      else if action == Some(JString("feed")) then Feed
      else if action == Some(JString("divide")) then Divide
      else Idle
  }

  /**
   * A move is produced exactly for an object tagged "move" whose lowercased direction is one of
   * the eight keys and whose distance is finite and within [0.5, 5] body lengths; the index is
   * that key's, and the distance is the parsed number itself, because the clamp never bites.
   */
  lemma ValidateMove(obj: Json, rt: Runtime)
    ensures Validate(obj, rt).Move? <==>
      obj.JObject? && Property(obj, "action") == Some(JString("move")) && MoveFieldsValid(obj, rt)
    ensures Validate(obj, rt).Move? ==>
      && 0 <= Validate(obj, rt).direction < 8
      && DIRECTION_KEYS[Validate(obj, rt).direction] == DirectionKey(obj, rt)
      && Distance(obj, rt) == Finite(Validate(obj, rt).distance)
      && MIN_MOVE_BODY_LENGTHS <= Validate(obj, rt).distance <= MAX_MOVE_BODY_LENGTHS
  {
  }

  /**
   * "feed" and "divide" give their field-free actions whatever else the object holds; any
   * other tag, a missing tag, or a value that is not an object gives idle.
   */
  lemma ValidateTags(obj: Json, rt: Runtime)
    ensures obj.JObject? && Property(obj, "action") == Some(JString("feed")) ==> Validate(obj, rt) == Feed
    ensures obj.JObject? && Property(obj, "action") == Some(JString("divide")) ==> Validate(obj, rt) == Divide
    ensures !obj.JObject? ==> Validate(obj, rt) == Idle
    ensures Property(obj, "action") !in {Some(JString("move")), Some(JString("feed")), Some(JString("divide"))}
      ==> Validate(obj, rt) == Idle
  {
  }

  const NO_JSON_ERROR: string :=
    "LLM response contained no valid JSON. Expected a single JSON object with action, direction (for move), and distance (for move)."
  const BAD_JSON_ERROR: string := "LLM response could not be parsed as JSON."
  const INVALID_ACTION_ERROR: string :=
    "LLM response had invalid or missing action. Expected move, feed, or divide with valid parameters."

  /** `parse`: the action of a reply, or the message of the error it throws. */
  function Parse(raw: string, rt: Runtime): (r: Result<Action, string>)
    ensures r.Success? ==> !r.value.Idle?
  {
    var text := ExtractJson(raw);
    if text.None? then Failure(NO_JSON_ERROR)
    else
      var obj := rt.parseJson(text.value);
      if obj.None? then Failure(BAD_JSON_ERROR)
      else
        var action := Validate(obj.value, rt);
        if action.Idle? then Failure(INVALID_ACTION_ERROR) else Success(action)
  }

  /**
   * The outcomes of `parse`: no brace text, text `JSON.parse` rejects and a value that is not an
   * object are each their own error; otherwise the action is the validated one, or an error
   * when validation yields idle.
   */
  lemma ParseOutcomes(raw: string, rt: Runtime)
    ensures (!exists i, j :: 0 <= i < j < |raw| && raw[i] == '{' && raw[j] == '}')
      ==> Parse(raw, rt) == Failure(NO_JSON_ERROR)
    ensures ExtractJson(raw).Some? && rt.parseJson(ExtractJson(raw).value).None?
      ==> Parse(raw, rt) == Failure(BAD_JSON_ERROR)
    ensures ExtractJson(raw).Some? && rt.parseJson(ExtractJson(raw).value).Some?
      ==> var v := rt.parseJson(ExtractJson(raw).value).value;
        && (!v.JObject? ==> Parse(raw, rt) == Failure(INVALID_ACTION_ERROR))
        && (Validate(v, rt) != Idle <==> Parse(raw, rt) == Success(Validate(v, rt)))
        && (Validate(v, rt) == Idle <==> Parse(raw, rt) == Failure(INVALID_ACTION_ERROR))
  {
    if ExtractJson(raw).Some? && rt.parseJson(ExtractJson(raw).value).Some? {
      ValidateTags(rt.parseJson(ExtractJson(raw).value).value, rt);
    }
  }

  /**
   * What `DIRECTION_MAP[key]` yields on a plain object literal: an own key's index, or a member
   * inherited from `Object.prototype`. Only `constructor` and `__proto__` are all lower case, so
   * only they can survive `toLowerCase`.
   */
  datatype MapLookup = OwnIndex(index: nat) | Inherited(name: string)

  function DirectionLookupAsWritten(key: string): (r: Option<MapLookup>)
    ensures r.Some? <==> key in DIRECTION_KEYS || key in ["constructor", "__proto__"]
  {
    var own := DirectionIndex(key);
    if own.Some? then Some(OwnIndex(own.value))
    else if key == "constructor" || key == "__proto__" then Some(Inherited(key))
    else None
  }

  /** The move test of lines 50-55 as written: `directionIndex !== undefined` and the range test. */
  predicate MoveAcceptedAsWritten(obj: Json, rt: Runtime) {
    var d := Distance(obj, rt);
    && obj.JObject?
    && Property(obj, "action") == Some(JString("move"))
    && DirectionLookupAsWritten(DirectionKey(obj, rt)).Some?
    && d.IsFinite()
    && MIN_MOVE_BODY_LENGTHS <= d.value <= MAX_MOVE_BODY_LENGTHS
  }

  /** A reply object asking for a move toward "constructor". */
  function PrototypeMove(): Json {
    JObject([("action", JString("move")), ("direction", JString("constructor")), ("distance", JNumber(2.0))])
  }

  lemma ConstructorIsLowerCase()
    ensures AsciiLower("constructor") == "constructor"
  {
    var w := "constructor";
    forall i | 0 <= i < |w|
      ensures !('A' <= w[i] <= 'Z')
    {
      assert i == 0 || i == 1 || i == 2 || i == 3 || i == 4 || i == 5 || i == 6 || i == 7 || i == 8 || i == 9 || i == 10;
    }
    AsciiLowerKeeps(w);
  }

  lemma PrototypeMoveFields(rt: Runtime)
    ensures Property(PrototypeMove(), "action") == Some(JString("move"))
    ensures DirectionKey(PrototypeMove(), rt) == "constructor"
    ensures Distance(PrototypeMove(), rt) == Finite(2.0)
  {
    var ms := PrototypeMove().members;
    assert ms[..2] == [("action", JString("move")), ("direction", JString("constructor"))];
    assert ms[..2][..1] == [("action", JString("move"))];
    assert Get(ms[..2][..1], "action") == Some(JString("move"));
    assert Get(ms[..2], "action") == Get(ms[..2][..1], "action");
    assert Property(PrototypeMove(), "direction") == Some(JString("constructor"));
    assert ToJsString(JString("constructor"), rt) == "constructor";
    ConstructorIsLowerCase();
  }

  /**
   * As written, a move toward "constructor" passes the test and carries a function instead of
   * a direction index; the model's `Validate` looks up own keys only and rejects it.
   */
  lemma PrototypeDirectionAccepted(rt: Runtime)
    ensures MoveAcceptedAsWritten(PrototypeMove(), rt)
    ensures DirectionLookupAsWritten(DirectionKey(PrototypeMove(), rt)) == Some(Inherited("constructor"))
    ensures Validate(PrototypeMove(), rt) == Idle
  {
    PrototypeMoveFields(rt);
    assert DirectionIndex("constructor") == None;
  }

  /** Away from the two inherited names, the as-written test and the own-key lookup agree. */
  lemma OwnLookupAgrees(obj: Json, rt: Runtime)
    requires DirectionKey(obj, rt) !in ["constructor", "__proto__"]
    ensures MoveAcceptedAsWritten(obj, rt) <==> Validate(obj, rt).Move?
    ensures MoveAcceptedAsWritten(obj, rt) ==>
      DirectionLookupAsWritten(DirectionKey(obj, rt)) == Some(OwnIndex(Validate(obj, rt).direction))
  {
    ValidateMove(obj, rt);
  }
}

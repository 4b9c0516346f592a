/**
 * The JavaScript values and built-ins the parser and the formatting code rely on. `JSON.parse`,
 * number-to-string, string-to-number and `toFixed` are taken as functions of a `Runtime`,
 * since their IEEE-754 and grammar details are not modelled.
 */
module Js {
  import opened Wrappers
  import opened Text

  /** A value produced by `JSON.parse`; an object keeps its members in source order. */
  datatype Json =
    | JNull
    | JBool(b: bool)
    | JNumber(n: real)
    | JString(s: string)
    | JArray(items: seq<Json>)
    | JObject(members: seq<(string, Json)>)

  /** A JavaScript number as `Number(...)` can produce it. */
  datatype JsNumber = Finite(value: real) | NaN | PosInfinity | NegInfinity {
    predicate IsFinite() { Finite? }
  }

  /**
   * The built-ins: `parseJson` is `JSON.parse` (None when it throws), `numberToString` is
   * `String(n)`, `stringToNumber` is `Number(s)` and `toFixed(v, k)` is `v.toFixed(k)`.
   */
  datatype Runtime = Runtime(
    parseJson: string -> Option<Json>,
    numberToString: real -> string,
    stringToNumber: string -> JsNumber,
    toFixed: (real, nat) -> string)

  /** Property lookup on a parsed object: `JSON.parse` keeps the last of duplicated keys. */
  function Get(members: seq<(string, Json)>, key: string): (r: Option<Json>)
    ensures r.None? <==> forall i :: 0 <= i < |members| ==> members[i].0 != key
    ensures r.Some? ==> exists i :: 0 <= i < |members| && members[i] == (key, r.value)
  {
    if members == [] then None
    else if members[|members| - 1].0 == key then Some(members[|members| - 1].1)
    else Get(members[..|members| - 1], key)
  }

  /** The member found is the last one with the key. */
  lemma {:induction false} GetAt(members: seq<(string, Json)>, i: nat, key: string)
    requires i < |members| && members[i].0 == key
    requires forall j :: i < j < |members| ==> members[j].0 != key
    ensures Get(members, key) == Some(members[i].1)
  {
    if i < |members| - 1 {
      GetAt(members[..|members| - 1], i, key);
    }
  }

  /** `obj.key` on a parsed value: an own member of an object, `undefined` otherwise. */
  function Property(v: Json, key: string): Option<Json> {
    if v.JObject? then Get(v.members, key) else None
  }

  /** `String(v)`: arrays join their items with ',' (null items print as ''). */
  function ToJsString(v: Json, rt: Runtime): string {
    match v
    case JNull => "null"
    case JBool(b) => if b then "true" else "false"
    case JNumber(n) => rt.numberToString(n)
    case JString(s) => s
    case JArray(items) =>
      Join(seq(|items|, i requires 0 <= i < |items| =>
        if items[i].JNull? then "" else ToJsString(items[i], rt)), ",")
    case JObject(_) => "[object Object]"
  }

  /** `Number(v)`, where None stands for `undefined`. */
  function ToJsNumber(v: Option<Json>, rt: Runtime): (r: JsNumber)
    ensures v.None? ==> r == NaN
    ensures v == Some(JNull) ==> r == Finite(0.0)
    ensures forall n :: v == Some(JNumber(n)) ==> r == Finite(n)
  {
    match v
    case None => NaN
    case Some(JNull) => Finite(0.0)
    case Some(JBool(b)) => Finite(if b then 1.0 else 0.0)
    case Some(JNumber(n)) => Finite(n)
    case Some(JString(s)) => rt.stringToNumber(s)
    case Some(JArray(items)) => rt.stringToNumber(ToJsString(JArray(items), rt))
    case Some(JObject(_)) => NaN
  }

  /** JavaScript truthiness of a parsed value (`!obj` is its negation). */
  predicate Truthy(v: Json) {
    match v
    case JNull => false
    case JBool(b) => b
    case JNumber(n) => n != 0.0
    case JString(s) => s != []
    case _ => true
  }

  /** `typeof v === 'object'` (true for null, arrays and objects). */
  predicate IsObjectType(v: Json) {
    v.JNull? || v.JArray? || v.JObject?
  }
}

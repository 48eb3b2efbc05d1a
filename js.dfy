/**
 * JSON values as the storefront receives them from `response.json()`, with the
 * JavaScript notions the code applies to them: truthiness, property access and
 * optional chaining. Objects keep their members in insertion order.
 */
module Js {
  import opened Wrappers

  datatype Json =
    | JNull
    | JBool(b: bool)
    | JNum(n: real)
    | JStr(s: string)
    | JArr(elems: seq<Json>)
    | JObj(members: seq<Member>)

  datatype Member = Member(key: string, value: Json)

  /** JavaScript truthiness (`NaN` is not modelled). */
  predicate Truthy(j: Json) {
    match j
    case JNull => false
    case JBool(b) => b
    case JNum(n) => n != 0.0
    case JStr(s) => s != ""
    case JArr(_) => true
    case JObj(_) => true
  }

  /** Truthiness of a value that may be `undefined` (`None`). */
  predicate TruthyOpt(v: Option<Json>) {
    v.Some? && Truthy(v.value)
  }

  /** Position of the first member named `key`, if any. */
  function MemberIndex(ms: seq<Member>, key: string): (r: Option<nat>)
    ensures r.Some? ==> r.value < |ms| && ms[r.value].key == key
    ensures r.Some? ==> forall i :: 0 <= i < r.value ==> ms[i].key != key
    ensures r.None? ==> forall i :: 0 <= i < |ms| ==> ms[i].key != key
    decreases |ms|
  {
    if |ms| == 0 then None
    else if ms[0].key == key then Some(0)
    else match MemberIndex(ms[1..], key)
      case None => None
      case Some(i) => Some(i + 1)
  }

  /** `v?.key`: `undefined` unless `v` is an object with that member. */
  function Get(v: Option<Json>, key: string): Option<Json> {
    if v.Some? && v.value.JObj? then
      match MemberIndex(v.value.members, key)
      case Some(i) => Some(v.value.members[i].value)
      case None => None
    else None
  }

  /** A truthy string value, used where the code expects a message or an id. */
  function Text(v: Option<Json>): Option<string> {
    if v.Some? && v.value.JStr? && v.value.s != "" then Some(v.value.s) else None
  }

  /** `a || b` on texts. */
  function TextOr(v: Option<Json>, fallback: string): string {
    Text(v).GetOr(fallback)
  }

  /**
   * The message of the `TypeError` thrown by reading a property of a `null`
   * body; its exact wording is the engine's and is not modelled.
   */
  const NullAccess := "TypeError: cannot read properties of null"

  /** The outcome of `fetch(...)` followed by `response.json()`. */
  datatype Reply =
    | Thrown(message: string)           // transport failure or unparseable body
    | Response(ok: bool, body: Json)
}

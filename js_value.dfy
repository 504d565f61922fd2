/**
 * The JavaScript values that flow through the credential lifecycle: payloads, users,
 * session entries, decoded JSON.  Truthiness, property access and JSON-safety are
 * written out so that every `if (payload)` and `|| undefined` of the source is explicit.
 */
module JsValue {

  /**
   * A JavaScript value as far as this library can observe it.  Numbers are integers
   * (clock readings in milliseconds and small counters); arrays are left out.
   */
  datatype Value =
    | Undefined
    | Null
    | Bool(b: bool)
    | Num(n: int)
    | Str(s: string)
    | Obj(fields: map<string, Value>)

  /** JavaScript's ToBoolean: `if (v)` takes the branch exactly when `Truthy(v)`. */
  predicate Truthy(v: Value) {
    match v
    case Undefined => false
    case Null => false
    case Bool(b) => b
    case Num(n) => n != 0
    case Str(s) => s != ""
    case Obj(_) => true
  }

  /** `null` or `undefined`: destructuring or reading a property of these throws. */
  predicate Nullish(v: Value) {
    v.Undefined? || v.Null?
  }

  /** Reading `m[k]` of a plain JavaScript object used as a dictionary: a missing key reads as undefined. */
  function Lookup(m: map<string, Value>, k: string): Value {
    if k in m then m[k] else Undefined
  }

  /**
   * `v?.k`: the property `k` of an object; `undefined` for every other value
   * (the keys read by this library are not properties of strings, numbers or booleans).
   */
  function Prop(v: Value, k: string): Value {
    match v
    case Obj(fields) => Lookup(fields, k)
    case _ => Undefined
  }

  /** `v || undefined`. */
  function OrUndefined(v: Value): (r: Value)
    ensures Truthy(v) ==> r == v
    ensures !Truthy(v) ==> r == Undefined
  {
    if Truthy(v) then v else Undefined
  }

  /**
   * Values that survive `JSON.parse(JSON.stringify(v))` unchanged: no `undefined`
   * anywhere (JSON drops such object members).
   */
  predicate JsonSafe(v: Value) {
    match v
    case Undefined => false
    case Obj(fields) => forall k :: k in fields ==> JsonSafe(fields[k])
    case _ => true
  }

  /** The object literal `{payload, createdAt}` that both carriers store or sign. */
  function Stamp(payload: Value, createdAt: Value): (r: Value)
    ensures Prop(r, "payload") == payload && Prop(r, "createdAt") == createdAt
    ensures Truthy(r) && !Nullish(r)
  {
    Obj(map["payload" := payload, "createdAt" := createdAt])
  }

  lemma StampJsonSafe(payload: Value, createdAt: Value)
    requires JsonSafe(payload) && JsonSafe(createdAt)
    ensures JsonSafe(Stamp(payload, createdAt))
  {
    var fields := map["payload" := payload, "createdAt" := createdAt];
    forall k | k in fields ensures JsonSafe(fields[k]) {
      if k == "payload" { assert fields[k] == payload; } else { assert fields[k] == createdAt; }
    }
  }
}

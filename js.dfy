/** JavaScript values as the relay sees them: parsed JSON messages, the
    payloads clients send, and `undefined` for a property that is not there.
    Only the few language operations the relay relies on are modelled:
    truthiness, property access, `||` and object rest destructuring. */
module Js {

  /** A JavaScript value. Numbers are reals (NaN and the infinities are not
      represented); `Obj` is a plain object, key order ignored. */
  datatype Value =
    | Undefined
    | Null
    | Bool(b: bool)
    | Num(n: real)
    | Str(s: string)
    | Arr(items: seq<Value>)
    | Obj(fields: map<string, Value>)

  /** An object with its own properties, as a JSON message or a client payload. */
  type Object = map<string, Value>

  /** How evaluating an expression ends: with a value, or with an exception
      (a TypeError from reading a property of `undefined` or `null`). */
  datatype Completion<T> = Normal(value: T) | Thrown

  /** `undefined` or `null`: the two values whose properties cannot be read. */
  predicate Nullish(v: Value) {
    v == Undefined || v == Null
  }

  /** ECMAScript ToBoolean, for the values represented here. */
  predicate Truthy(v: Value) {
    match v
    case Undefined => false
    case Null => false
    case Bool(b) => b
    case Num(n) => n != 0.0
    case Str(s) => s != ""
    case Arr(_) => true
    case Obj(_) => true
  }

  /** `o.key` on an object: the own property, or `undefined`. */
  function Field(o: Object, key: string): (v: Value)
    ensures key in o ==> v == o[key]
    ensures key !in o ==> v == Undefined
  {
    if key in o then o[key] else Undefined
  }

  /** `v.key` on a value whose properties can be read. Primitives and arrays
      have no own data properties here (built-ins such as `length` and array
      indices are not modelled; the relay reads none), so reading one yields
      `undefined`. */
  function Prop(v: Value, key: string): (r: Value)
    requires !Nullish(v)
    ensures v.Obj? ==> r == Field(v.fields, key)
    ensures !v.Obj? ==> r == Undefined
  {
    match v
    case Obj(fields) => Field(fields, key)
    case _ => Undefined
  }

  /** `v.key` on any value: throws exactly when `v` is `undefined` or `null`. */
  function Get(v: Value, key: string): (c: Completion<Value>)
    ensures c.Thrown? <==> Nullish(v)
    ensures c.Normal? ==> c.value == Prop(v, key)
  {
    if Nullish(v) then Thrown else Normal(Prop(v, key))
  }

  /** `a || b`: the left operand when it is truthy, otherwise the right one. */
  function Or(a: Value, b: Value): (r: Value)
    ensures Truthy(a) ==> r == a
    ensures !Truthy(a) ==> r == b
    ensures Truthy(b) ==> Truthy(r)
  {
    if Truthy(a) then a else b
  }

  /** The `rest` of `const { key, ...rest } = o`: every own property of `o`
      except `key`, with the same values. */
  function Omit(o: Object, key: string): (r: Object)
    ensures key !in r
    ensures r.Keys == o.Keys - {key}
    ensures forall k | k in r :: r[k] == o[k]
  {
    o - {key}
  }

  /** `response.msg_type === t`. */
  predicate IsMsg(response: Object, t: string) {
    Field(response, "msg_type") == Str(t)
  }
}

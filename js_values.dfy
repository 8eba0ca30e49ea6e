/** JavaScript values as the adapter and the provider builder see them: the
    primitive values, plain objects and arrays, with JavaScript's truthiness
    and the property accesses the code performs. Promises are modelled by
    their settled outcome. */
module Js {

  datatype Option<+T> = None | Some(value: T)

  /** A JavaScript value. Numbers are integers only (no NaN, no fractions). */
  datatype Value =
    | Undefined
    | Null
    | Bool(b: bool)
    | Num(n: int)
    | Str(s: string)
    | Obj(fields: map<string, Value>)
    | Arr(elems: seq<Value>)

  /** A plain JavaScript object, as a record of its own properties. */
  type Doc = map<string, Value>

  /** Errors a promise is rejected with or an expression throws. */
  datatype JsError =
    | TypeError                      // property access on undefined or null
    | UniqueViolated(key: Value)     // the store refused a duplicate `_id`
    | Error(message: string)         // `new Error(message)`

  /** The settled state of a promise (or the completion of a call that may throw). */
  datatype Outcome<+T> = Resolved(value: T) | Rejected(error: JsError)

  /** JavaScript truthiness: `if (v)`, `!v`, `a || b`, `a && b`. */
  predicate Truthy(v: Value) {
    match v
    case Undefined => false
    case Null => false
    case Bool(b) => b
    case Num(n) => n != 0
    case Str(s) => s != ""
    case Obj(_) => true
    case Arr(_) => true
  }

  predicate Nullish(v: Value) {
    v == Undefined || v == Null
  }

  /** `o[key]` on a plain object: a missing property reads as undefined. */
  function Get(o: Doc, key: string): Value {
    if key in o then o[key] else Undefined
  }

  /** `a || b`: the left operand when it is truthy, otherwise the right one. */
  function Or(a: Value, b: Value): Value {
    if Truthy(a) then a else b
  }

  /** `v.key` for a property name that no built-in prototype defines (every
      name this code reads is one): a TypeError on undefined or null, the
      own property of an object, undefined on anything else. */
  function Member(v: Value, key: string): (r: Outcome<Value>)
    ensures r.Rejected? <==> Nullish(v)
    ensures r.Rejected? ==> r.error == TypeError
  {
    match v
    case Undefined => Rejected(TypeError)
    case Null => Rejected(TypeError)
    case Obj(m) => Resolved(Get(m, key))
    case _ => Resolved(Undefined)
  }

  /** `v[0]`: a TypeError on undefined or null, the first element of an
      array or the first character of a string when there is one, the
      property "0" of an object, undefined otherwise. */
  function ElementZero(v: Value): (r: Outcome<Value>)
    ensures r.Rejected? <==> Nullish(v)
    ensures r.Rejected? ==> r.error == TypeError
    ensures v.Arr? ==> r == Resolved(if |v.elems| > 0 then v.elems[0] else Undefined)
  {
    match v
    case Undefined => Rejected(TypeError)
    case Null => Rejected(TypeError)
    case Arr(s) => Resolved(if |s| > 0 then s[0] else Undefined)
    case Str(s) => Resolved(if |s| > 0 then Str(s[..1]) else Undefined)
    case Obj(m) => Resolved(Get(m, "0"))
    case _ => Resolved(Undefined)
  }
}

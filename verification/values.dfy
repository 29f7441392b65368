/** JavaScript values as the adapter mock sees them. */
module Values {

  datatype Option<+T> = None | Some(value: T)

  /** A JavaScript value. Numbers are modelled as integers; a function is an
      opaque reference, told apart from other functions by `ref`. */
  datatype Value =
    | Undefined
    | Null
    | Bool(b: bool)
    | Num(n: int)
    | Str(s: string)
    | Obj(fields: map<string, Value>)
    | Func(ref: nat)

  /** A plain object: property name to value. Object records and partial
      objects handed to the mock are records. */
  type Record = map<string, Value>

  /** `r[key]`, which is `undefined` for a missing property. */
  function Field(r: Record, key: string): (v: Value)
    ensures key !in r ==> v == Undefined
    ensures key in r ==> v == r[key]
  {
    if key in r then r[key] else Undefined
  }

  /** JavaScript truthiness, the test behind `!!x`, `x || d` and `!x`. */
  predicate Truthy(v: Value) {
    match v
    case Undefined => false
    case Null => false
    case Bool(b) => b
    case Num(n) => n != 0
    case Str(s) => s != ""
    case Obj(_) => true
    case Func(_) => true
  }

  /** `v != null && typeof v === "object"`. */
  predicate IsObject(v: Value) {
    v.Obj?
  }
}

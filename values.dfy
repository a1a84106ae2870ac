/**
 * The JavaScript values the runtime moves around, abstracted to what its
 * branches look at: truthiness, `typeof ... === "object"` and `===`.
 * Numbers are integers (floating point and NaN are not modelled), so `===`,
 * `Object.is` and `hasChanged` all become Dafny equality.
 */
module Values {

  /** How a reactive proxy behaves: the two flags of `createGetter`. */
  datatype Mode = Mode(isReadonly: bool, shallow: bool)

  const MUTABLE := Mode(false, false)
  const READONLY := Mode(true, false)
  const SHALLOW_READONLY := Mode(true, true)
  const SHALLOW_REACTIVE := Mode(false, true)

  datatype Value =
    | Undefined
    | Null
    | Bool(b: bool)
    | Num(n: int)
    | Str(s: string)
    /** an object (a plain object or a reactive proxy), by identity */
    | Obj(ref: nat)
    /** a user function, by identity */
    | Func(fn: nat)

  /** JavaScript truthiness. */
  predicate Truthy(v: Value)
  {
    match v
    case Undefined => false
    case Null => false
    case Bool(b) => b
    case Num(n) => n != 0
    case Str(s) => s != ""
    case _ => true
  }

  /** `isObject`: `value !== null && typeof value === "object"`. */
  predicate IsObject(v: Value)
  {
    v.Obj?
  }

  /** `hasChanged(a, b)` is `!Object.is(a, b)`; without NaN and -0 it is inequality. */
  predicate HasChanged(a: Value, b: Value)
  {
    a != b
  }

  type Key = string

  /** The sentinel keys of `ReactiveFlags`. */
  const IS_REACTIVE: Key := "__v_isReactive"
  const IS_READONLY: Key := "__v_isReadonly"
  const RAW: Key := "__v_raw"
}

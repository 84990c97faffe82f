/** JavaScript values as the plugin sees them in its configuration, in the
    project manifest and in the host's service description, and the
    truthiness test that every `||`, `&&` and `!` of the plugin applies. */
module Js {

  datatype Option<+T> = None | Some(value: T) {
    function GetOr(default: T): T {
      match this
      case Some(v) => v
      case None => default
    }
  }

  /** A closed model of a JavaScript value. Numbers are integers here: NaN
      and fractions do not occur in the configuration this plugin reads.
      `Obj` stands for every value lodash's `isObject` accepts (plain
      objects, arrays, functions), given by its own properties. */
  datatype Value =
    | Undefined
    | Null
    | Bool(b: bool)
    | Num(n: int)
    | Str(s: string)
    | Obj(props: map<string, Value>)

  /** JavaScript truthiness: `undefined`, `null`, `false`, `0` and the empty
      string are falsy, everything else is truthy. */
  predicate Truthy(v: Value) {
    match v
    case Undefined => false
    case Null => false
    case Bool(b) => b
    case Num(n) => n != 0
    case Str(s) => s != ""
    case Obj(_) => true
  }

  /** lodash `isString` or `isObject`: the values that name a file stream. */
  predicate IsStringOrObject(v: Value) {
    v.Str? || v.Obj?
  }

  /** The property `name` of an options object, `undefined` when absent. */
  function NameProperty(props: map<string, Value>): Value {
    if "name" in props then props["name"] else Undefined
  }
}

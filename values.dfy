/**
 * JavaScript values as the signal library sees them.
 *
 * Dafny's `==` on `Value` stands for JavaScript's strict equality `===`:
 * primitives compare by content, objects and functions by reference (the
 * `id` of their allocation).
 */
module Values {

  datatype Value =
    | Undefined
    | Null
    | Bool(b: bool)
    | Num(n: int)
    | Str(s: string)
    | Obj(id: nat)   // any non-callable object: plain object, array, ...
    | Fn(id: nat)    // any callable object: a function

  /** The string JavaScript's `typeof` operator yields for `v`. */
  function TypeOf(v: Value): (t: string)
    ensures t == "function" <==> v.Fn?
    ensures t == "undefined" <==> v.Undefined?
  {
    match v
    case Undefined => "undefined"
    case Null => "object"
    case Bool(_) => "boolean"
    case Num(_) => "number"
    case Str(_) => "string"
    case Obj(_) => "object"
    case Fn(_) => "function"
  }

  /** `typeof v === "function"`: the only test the library applies to listeners. */
  predicate IsFunction(v: Value) {
    v.Fn?
  }

  datatype Option<T> = None | Some(value: T)

  /** The errors the library throws. */
  datatype Error =
    | ListenerNotFunction(sawType: string)  // TypeError "(Signal) Listener must be typeof function, instead saw '<sawType>'"
    | PluginNotCallable(plugin: Value)      // TypeError from calling a non-function plugin

  /** How a call completes: it returns a value or throws. */
  datatype Completion<T> = Return(value: T) | Throw(error: Error)
}

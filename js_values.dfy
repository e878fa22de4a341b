/** The slice of JavaScript's value model that index.js relies on: option
    values, their truthiness, the own enumerable properties a `for…in` loop
    with a `hasOwnProperty` filter visits, and the errors the module can raise. */
module JsValues {

  /** A JavaScript value. Numbers are integers here (NaN and fractions play no
      part in the module); a function is known only by an identity; an object
      is the map of its own enumerable properties. */
  datatype Value =
    | Undefined
    | Null
    | Bool(b: bool)
    | Num(n: int)
    | Str(s: string)
    | Func(id: nat)
    | Obj(props: Props)

  /** The own enumerable properties of an object, by key. */
  type Props = map<string, Value>

  /** JavaScript truthiness: `if (v)`, `v && …`. */
  predicate Truthy(v: Value) {
    match v
    case Undefined => false
    case Null => false
    case Bool(b) => b
    case Num(n) => n != 0
    case Str(s) => s != ""
    case Func(_) => true
    case Obj(_) => true
  }

  /** The keys `for (key in v) if (v.hasOwnProperty(key))` visits, with their
      values. Only objects contribute: `null`, `undefined`, booleans and numbers
      have no enumerable properties, and neither do the functions of this model. */
  function OwnProps(v: Value): (r: Props)
    ensures !v.Obj? ==> r == map[]
  {
    if v.Obj? then v.props else map[]
  }

  /** Reading `options.key`: an absent property reads as `undefined`. */
  function Get(props: Props, key: string): (r: Value)
    ensures key !in props ==> r == Undefined
    ensures key in props ==> r == props[key]
  {
    if key in props then props[key] else Undefined
  }

  /** The errors the modelled code raises or forwards. */
  datatype Error =
    | NoSuchFile(path: string)        // fs.readFile / fs.readFileSync on a path the disk does not hold
    | CouldNotParse(message: string)  // the dispatcher's own `new Error(…)`
    | NotAFunction(member: string)    // TypeError: calling a capability the backend lacks
    | BackendError(detail: string)    // whatever a wrapped library throws

  /** A value or the error that replaced it (a throw, or a callback's `err`). */
  datatype Result<T> = Ok(value: T) | Err(error: Error)

  datatype Option<T> = None | Some(value: T)
}

/** The JavaScript values the resolver inspects: thrown values, fetched payloads,
    the verifier's verdict, a compiled default export and a routed source. */
module JsValues {

  datatype Option<T> = None | Some(value: T)

  /** A JavaScript value. Numbers are integers here; an object is the list of its
      own properties, a function is known by its identity alone. */
  datatype Value =
    | Undefined
    | Null
    | Bool(b: bool)
    | Number(n: int)
    | Str(s: string)
    | Function(id: nat)
    | Object(props: seq<(string, Value)>)

  /** The outcome of a call into code the resolver does not see: a value, or a throw. */
  datatype Try<T> = Returned(value: T) | Threw(thrown: Value)

  /** The `typeof` operator. */
  function TypeOf(v: Value): string
  {
    match v
    case Undefined => "undefined"
    case Null => "object"
    case Bool(_) => "boolean"
    case Number(_) => "number"
    case Str(_) => "string"
    case Function(_) => "function"
    case Object(_) => "object"
  }

  /** JavaScript truthiness, as used by `!!x` and `x || y`. */
  predicate Truthy(v: Value)
  {
    match v
    case Undefined => false
    case Null => false
    case Bool(b) => b
    case Number(n) => n != 0
    case Str(s) => s != ""
    case Function(_) => true
    case Object(_) => true
  }

  /** Own property `name` of an object; `undefined` when there is none. */
  function Get(props: seq<(string, Value)>, name: string): Value
  {
    if props == [] then Undefined
    else if props[0].0 == name then props[0].1
    else Get(props[1..], name)
  }

  /** The property read `v.name`: reading from `null` or `undefined` throws a
      TypeError, and primitives and functions carry none of the properties read here. */
  function ReadProperty(v: Value, name: string): (r: Try<Value>)
    ensures r.Threw? <==> (v.Null? || v.Undefined?)
  {
    match v
    case Undefined => Threw(MakeError("Cannot read properties of undefined (reading '" + name + "')"))
    case Null => Threw(MakeError("Cannot read properties of null (reading '" + name + "')"))
    case Object(props) => Returned(Get(props, name))
    case _ => Returned(Undefined)
  }

  /** `new Error(message)`. */
  function MakeError(message: string): (e: Value)
    ensures e.Object? && Get(e.props, "message") == Str(message)
    ensures Truthy(e) && TypeOf(e) == "object"
  {
    Object([("message", Str(message))])
  }
}

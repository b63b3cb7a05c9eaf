/**
 * The JavaScript values that flow through the query builder: the arguments of
 * its chainable methods, the fields of its query descriptor and the options it
 * is constructed with. JavaScript's `undefined` (a property that is not there)
 * is `None` of an `Option`; every other value is a `Value`.
 */
module Values {

  /** An optional value; `None` stands for a missing property (`undefined`). */
  datatype Option<+T> = None | Some(value: T) {

    /** The value, or `default` when it is missing (JavaScript's `x || default` on objects). */
    function GetOr(default: T): T {
      match this
      case Some(v) => v
      case None => default
    }
  }

  /** Either a value or the error a JavaScript function would have thrown or reported. */
  datatype Result<+R, +E> = Success(value: R) | Failure(error: E)

  /**
   * A JSON-like JavaScript value. Numbers are integers here; functions and
   * driver objects are represented by the object they are.
   */
  datatype Value =
    | Null
    | Bool(b: bool)
    | Int(i: int)
    | Str(s: string)
    | Arr(items: seq<Value>)
    | Obj(fields: map<string, Value>)

  /** The falsy values `Value` can hold. */
  const FALSY: set<Value> := {Null, Bool(false), Int(0), Str("")}

  /** JavaScript truthiness: `null`, `false`, `0` and `""` are falsy; arrays and objects are truthy. */
  predicate Truthy(v: Value)
    ensures Truthy(v) <==> v !in FALSY
  {
    match v
    case Null => false
    case Bool(b) => b
    case Int(i) => i != 0
    case Str(s) => s != ""
    case Arr(_) => true
    case Obj(_) => true
  }

  /** The test `if (o.x)` on a property that may be missing. */
  predicate Present(o: Option<Value>)
    ensures Present(o) <==> o.Some? && o.value !in FALSY
  {
    o.Some? && Truthy(o.value)
  }
}

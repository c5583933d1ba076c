/** Values that cross the boundary between the engine and the automation handlers. */
module Types {

  datatype Option<T> = None | Some(value: T)

  /** The Python values a handler can return (the ones the automation functions produce). */
  datatype Value = NoneValue | Str(s: string) | Int(i: int)

  /** Python truthiness: None, the empty string and zero are falsy. */
  predicate Truthy(v: Value)
  {
    match v
    case NoneValue => false
    case Str(s) => s != ""
    case Int(i) => i != 0
  }

  /** Keyword arguments of a call. */
  type Params = map<string, Value>

  /** What a handler does when it is called: return a value or raise. */
  datatype HandlerOutcome =
    | Returns(result: Value)
    | RaisesTypeError(message: string)
    | RaisesOther(message: string)

  /** A handler, seen from outside: given its keyword arguments (None for a call with no
      arguments), what it returns or raises. Its side effects are not modelled. */
  type Handler = Option<Params> -> HandlerOutcome
}

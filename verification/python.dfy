/** The few Python run-time notions the agent's behaviour depends on: an
    optional value, the exceptions that can leave one of its members, the
    outcome of evaluating an expression, and the truth value of an optional
    string in an `if`. */
module Python {

  /** `None` or a value. */
  datatype Option<T> = None | Some(value: T)

  /** An exception raised while the agent handles a turn. */
  datatype Exc =
    | KeyError(key: string)
    | TypeError(message: string)
    | UnboundLocalError(name: string)
    | TemplateError(message: string)
  {
    /** `str(err)`: a `KeyError` prints the repr of its key; the others print their message. */
    function Str(): string {
      match this
      case KeyError(k) => "'" + k + "'"
      case TypeError(m) => m
      case UnboundLocalError(n) => "cannot access local variable '" + n + "' where it is not associated with a value"
      case TemplateError(m) => m
    }
  }

  /** What evaluating an expression or a call produces: a value, or an exception in flight. */
  datatype Outcome<T> = Value(value: T) | Raised(exc: Exc)

  /** The truth value of an `Optional[str]` used as an `if` condition: `None` and `""` are false. */
  predicate Truthy(s: Option<string>) {
    s.Some? && s.value != ""
  }
}

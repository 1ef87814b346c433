/** Values shared by every part of the model: an optional value, and the
    shapes a field of a decoded JSON request body can take. */
module Common {

  datatype Option<+T> = None | Some(value: T)

  /** One field of a decoded JSON body, as JavaScript sees it after
      `request.json()`: absent (`undefined`), `null`, a string, or any other
      JSON value (number, boolean, object, array), of which only the
      JavaScript truthiness matters to the code. */
  datatype Json = Undefined | Null | Str(s: string) | Other(truthy: bool)

  /** JavaScript truthiness of a field (`!x` is its negation). */
  predicate Truthy(v: Json) {
    match v
    case Undefined => false
    case Null => false
    case Str(s) => s != ""
    case Other(t) => t
  }

  /** Truthiness of an optional string, where `None` stands for a missing,
      `null` or `undefined` value. */
  predicate TruthyText(v: Option<string>) {
    v.Some? && v.value != ""
  }

  /** `text || ''` for an optional string. */
  function TextOf(d: Option<string>): string
  {
    if d.Some? then d.value else ""
  }

  /** A request body: not parseable as JSON (`request.json()` throws), the
      JSON literal `null`, or a JSON value whose fields are `F`. */
  datatype Body<F> = NotJson | JsonNull | JsonValue(fields: F)

  /** What a route makes of its body before touching the store: a response
      it returns at once, or the input it goes on with. */
  datatype Parsed<T> = Rejected(status: int, error: string) | Accepted(input: T)

  const InternalError := "Internal server error"
}

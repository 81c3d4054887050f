/** Values as the TypeScript sources see them: properties that may be
    absent (`undefined`), JavaScript truthiness, the `||` default idiom,
    template-literal interpolation, and exceptions carried as messages. */
module JsValues {

  /** A property that may be absent: None stands for `undefined`. */
  datatype Option<+T> = None | Some(value: T) {
    /** `x || d` for a value whose every present form is truthy
        (objects and arrays, even empty ones). */
    function GetOr(default: T): T {
      match this
      case Some(v) => v
      case None => default
    }
  }

  /** The outcome of code that may throw: Err carries the thrown error's
      `message` (both `Error` and `TypeError` reach callers that way). */
  datatype Result<+T> = Ok(value: T) | Err(message: string)

  /** A string property is truthy when it is present and not empty. */
  predicate Truthy(s: Option<string>) {
    s.Some? && s.value != ""
  }

  /** `s || default` for a string property: the empty string counts as
      missing, exactly as an absent one does. */
  function OrElse(s: Option<string>, default: string): string {
    if Truthy(s) then s.value else default
  }

  /** `${s}` inside a template literal: an absent value prints "undefined". */
  function Str(s: Option<string>): string {
    match s
    case Some(v) => v
    case None => "undefined"
  }

  /** The message of the TypeError a JavaScript engine throws when code reads
      property `prop` of `undefined` (or of `null`); the wording is V8's. */
  function CannotRead(receiver: string, prop: string): string {
    "Cannot read properties of " + receiver + " (reading '" + prop + "')"
  }

  function ReadOfUndefined(prop: string): string {
    CannotRead("undefined", prop)
  }

  function ReadOfNull(prop: string): string {
    CannotRead("null", prop)
  }
}

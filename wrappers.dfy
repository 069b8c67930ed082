/** Failure-carrying values shared by every module of the model.
    Go's `(T, error)` pairs become `Result<T>`; a bare `error` becomes `Outcome`. */
module Wrappers {

  datatype Option<+T> = None | Some(value: T)

  /** A value, or the text of the error Go would have returned. */
  datatype Result<+T> = Ok(value: T) | Err(error: string)

  /** Go's `error`: `Pass` stands for `nil`. */
  datatype Outcome = Pass | Fail(error: string)

  /** Appending to a log in two steps is appending both parts at once. */
  lemma AppendAssoc<T>(x: seq<T>, y: seq<T>, z: seq<T>)
    ensures (x + y) + z == x + (y + z)
  {
  }

  /** How Go's `%w` verb renders an error value: a nil error prints as `%!w(<nil>)`. */
  function Render(o: Outcome): string
  {
    match o
    case Pass => "%!w(<nil>)"
    case Fail(e) => e
  }
}

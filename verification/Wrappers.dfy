// Result and Option shared by all components: the source's exceptions become `Err`,
// its `undefined`/`None` values become `None`.
module Wrappers {
  datatype Option<+T> = None | Some(value: T)

  datatype Result<+T, +E> = Ok(value: T) | Err(error: E)

  function Find<T>(m: map<string, T>, key: string): Option<T> {
    if key in m then Some(m[key]) else None
  }

  function FindOr<T>(m: map<string, T>, key: string, default: T): T {
    if key in m then m[key] else default
  }

  /** The first of two options that is there. */
  function Either<T>(a: Option<T>, b: Option<T>): Option<T> {
    if a.Some? then a else b
  }
}

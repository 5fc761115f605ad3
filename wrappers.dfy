/** The outcome shapes shared by the model: an optional value, a value or an error, and the
    result of a call into a component that may raise. */
module Wrappers {

  datatype Option<+T> = None | Some(value: T)

  datatype Result<+T, +E> = Ok(value: T) | Err(error: E)

  /** What a call into an outside component (a web API, a parser, a browser) did: it returned a
      value or it raised an exception. */
  datatype Call<+T> = Returned(value: T) | Raised
}

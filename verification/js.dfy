/** JavaScript values the server handles: `undefined`, settled promises and thrown errors. */
module Js {

  /** A value that may be JavaScript's `undefined` (`None`). */
  datatype Option<T> = None | Some(value: T)

  /** How a promise settled: fulfilled with a value, or rejected with an error. */
  datatype Result<T, E> = Ok(value: T) | Err(error: E)

  /** The errors that reach the server's error handler. */
  datatype Failure =
    | ProviderFailed(text: string)     // a rejected provider request; `text` is the error's string form, e.g. "Error: Not Found"
    | FirstResultMissing               // `geoData[0]` was undefined: the geocoder returned no result

  /** The string form of a failure, as `'...' + error` produces it. */
  function FailureText(f: Failure): string
  {
    match f
    case ProviderFailed(m) => m
    case FirstResultMissing => "TypeError: Cannot read properties of undefined (reading 'display_name')"
  }
}

/** Failure values of the screenshot directive.

    Every exception the directive's deterministic part can raise becomes an
    `Error`; operations that can raise return a `Result`. */
module Errors {

  /** Python's `None`-or-value, used for optional options and config values. */
  datatype Option<+T> = None | Some(value: T) {

    /** `x or default` / `dict.get(key, default)`: the value if present. */
    function GetOr(default: T): T {
      match this
      case Some(v) => v
      case None => default
    }
  }

  datatype Error =
    | InvalidUrl(url: string)            // RuntimeError: the resolved target has an unsupported scheme
    | InvalidStatusCode(segment: string) // ValueError: `int()` of a status-code segment
    | MalformedHeader(line: string)      // ValueError: a header line without a space cannot be unpacked
    | UnknownContext(name: string)       // KeyError: `screenshot_contexts[name]`
    | MalformedImportPath(path: string)  // ValueError: "module:method" did not split into two parts

  datatype Result<+T> = Ok(value: T) | Err(error: Error) {

    predicate IsFailure() {
      Err?
    }

    function PropagateFailure<U>(): Result<U>
      requires Err?
    {
      Err(error)
    }

    function Extract(): T
      requires Ok?
    {
      value
    }
  }
}

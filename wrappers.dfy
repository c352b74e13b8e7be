/** Option and Result values, and the kinds of exception the modelled code raises. */
module Wrappers {

  datatype Option<+T> = None | Some(value: T)

  /** The exception classes the core raises or lets through, each with its message. */
  datatype Error =
    | ValueError(message: string)
    | TypeError(message: string)
    | KeyError(key: string)
    | IndexError(message: string)
    | AttributeError(message: string)
    | JsonDecodeError(message: string)
    | ToolExecutionError(message: string)
    | InvalidRunStateError(message: string)
    | MaxRetriesExceededError(message: string)
    | RuntimeError(message: string)
    | ProviderError(message: string)
    | ApiError(message: string)    // the client library's APIError, RateLimitError among them
  {
    /** `str(e)`: the message, except that a KeyError shows its key quoted. */
    function Text(): string
    {
      match this
      case KeyError(key) => "'" + key + "'"
      case _ => message
    }
  }

  /** What Python raises for `[][-1]`. */
  const EMPTY_INDEX: Error := IndexError("list index out of range")

  /** A value, or the exception that was raised instead. */
  datatype Result<+T> = Ok(value: T) | Err(error: Error)

  /** True iff `prefix` is a prefix of `s` (Python's `s.startswith(prefix)`). */
  predicate StartsWith(s: string, prefix: string)
  {
    |prefix| <= |s| && s[..|prefix|] == prefix
  }
}

/** Error values of the token cache (zoom/tokenmutex/errors.go) and the ways the
    client wraps them, with the small Option/Result wrappers used throughout. */
module Errors {

  datatype Option<+T> = None | Some(value: T)

  datatype Result<+T> = Ok(value: T) | Err(error: Error)

  /** A Go `error` value as far as this model distinguishes them. */
  datatype Error =
    | TokenNotExist                                   // tokenmutex.ErrTokenNotExist
    | TokenExpired                                    // tokenmutex.ErrTokenExpired
    | Library(name: string)                           // raised by HTTP, JSON, Redis or redislock code outside the model
    | Errorf(context: string, cause: Error)           // fmt.Errorf("<context>: %w", cause)
    | NonOKStatus(status: int)                        // fmt.Errorf("received non-200 status code: %d"), wraps nothing
    | ApiError(code: int, message: string)            // an *ErrorResponse decoded from a failed API call
    | Wrapped(annotation: string, inner: Option<Error>)  // errs.Wrap(inner, annotation); inner None is a nil error

  /** errors.Is as far as the model knows it: the target itself, or reachable through
      fmt.Errorf's %w chain. */
  predicate Is(err: Error, target: Error)
  {
    err == target || (err.Errorf? && Is(err.cause, target))
  }

  /** `e` wrapped by fmt.Errorf("<c>: %w", ...) once per context, the outermost first. */
  function Chain(contexts: seq<string>, e: Error): Error
    decreases |contexts|
  {
    if contexts == [] then e else Errorf(contexts[0], Chain(contexts[1..], e))
  }

  /** errors.Is sees through any number of %w layers, and finds nothing more than the
      innermost error holds. */
  lemma {:induction false} IsThroughChain(contexts: seq<string>, e: Error, target: Error)
    requires !target.Errorf?
    ensures Is(Chain(contexts, e), target) <==> Is(e, target)
    decreases |contexts|
  {
    if contexts != [] {
      IsThroughChain(contexts[1..], e, target);
    }
  }

  /** What TokenMutex.Get answers: Go's (string, error) pair. */
  datatype TokenReply = TokenReply(token: string, err: Option<Error>)
}

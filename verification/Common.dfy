/** Small shared vocabulary: optional values and results that carry the router's error. */
module Common {
  datatype Option<+T> = None | Some(value: T) {
    function OrElse(other: T): T {
      if Some? then value else other
    }
  }

  /** The normalized error codes of the router (src/gateway/errors.ts). */
  datatype ErrorCode =
    | InvalidRequest | AuthError | RateLimited | ProviderUnavailable | ContextExceeded
    | ContentFiltered | PolicyBlocked | ScrubberBlocked | CapabilityMissing
    | NoVisionProvider | InvalidResponse | BudgetExceeded | Unknown

  /** The machine reasons the router puts in an error's detail or message; others keep their text. */
  datatype ErrorReason =
    | Unstated | Truncated | NoContent | ScrubberFailure | TotalTimeout | IdleTimeout
    | CircuitOpen | NoSlot | NoUsableModel | CallerAborted | Other(text: string)

  datatype RouterError = RouterError(code: ErrorCode, reason: ErrorReason)

  datatype Result<+T> = Ok(value: T) | Err(error: RouterError)

  predicate Retryable(code: ErrorCode) {
    code == RateLimited || code == ProviderUnavailable || code == InvalidResponse
  }
}

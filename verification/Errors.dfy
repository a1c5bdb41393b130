/** Errors as the two retry loops tell them apart. */
module Errors {
  const CODE_UNKNOWN := 1
  const CODE_APP_DISABLED := 2
  const CODE_UNKNOWN_METHOD := 3
  const CODE_AUTH_FAILED := 5
  const CODE_TOO_MANY_REQUESTS := 6
  const CODE_PERMISSION_DENIED := 7
  const CODE_INTERNAL := 10
  const CODE_CAPTCHA_NEEDED := 14
  const CODE_ACCESS_DENIED := 15
  const CODE_VALIDATION_REQUIRED := 17

  /** A VK error by its code, the two context errors, a transport timeout, the rest. */
  datatype Error = Api(code: int) | Canceled | DeadlineExceeded | Timeout | BadVersion | Other

  /** api.Error.Retryable and api.retryable. context.DeadlineExceeded is itself a timeout. */
  predicate Retryable(e: Error) {
    match e
    case Api(c) => c == CODE_UNKNOWN || c == CODE_TOO_MANY_REQUESTS || c == CODE_INTERNAL
    case DeadlineExceeded => true
    case Timeout => true
    case _ => false
  }

  /** longpoll.fatal. */
  predicate Fatal(e: Error) {
    match e
    case Canceled => true
    case DeadlineExceeded => true
    case Api(c) =>
      c == CODE_AUTH_FAILED || c == CODE_PERMISSION_DENIED || c == CODE_ACCESS_DENIED || c == CODE_APP_DISABLED
      || c == CODE_UNKNOWN_METHOD || c == CODE_VALIDATION_REQUIRED || c == CODE_CAPTCHA_NEEDED
    case _ => false
  }
}

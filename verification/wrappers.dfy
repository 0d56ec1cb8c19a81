/** Failure-compatible wrappers shared by every module of the model, and the
    closed set of terminal errors the connector can raise. */
module Wrappers {

  datatype Option<+T> = None | Some(value: T) {
    predicate IsFailure() { None? }

    function PropagateFailure<U>(): Option<U>
      requires None?
    {
      None
    }

    function Extract(): T
      requires Some?
    {
      value
    }

    function GetOr(default: T): T {
      match this
      case Some(v) => v
      case None => default
    }

    function ToResult(error: Fault): Result<T> {
      match this
      case Some(v) => Success(v)
      case None => Failure(error)
    }
  }

  datatype Result<+R> = Success(value: R) | Failure(error: Fault) {
    predicate IsFailure() { Failure? }

    function PropagateFailure<U>(): Result<U>
      requires Failure?
    {
      Failure(error)
    }

    function Extract(): R
      requires Success?
    {
      value
    }
  }

  /** Every way the connector gives up on a request: an exception it throws
      (`throw new Exception`), a PHP runtime error it runs into, or an
      explicit `die()` that is not a normal reply. */
  datatype Fault =
    | UnknownChatbotResponse      // digestFromApi: neither an answer list nor a known message
    | NotConvertibleToString      // an object or list used where PHP needs a string
    | InvalidChannelCredentials   // getTokensFromExtraInfo: missing channel id or secret
    | InvalidRequest              // getExternalIdFromRequest: no LINE source and no hook secret
    | NoAccessToken               // LineAPIClient::line with a null token
    | InvalidKeySecret            // the credential endpoint answered "Unauthorized"
    | UntrackedEvent              // sendEventToBot: event type other than rate/click
}

/**
 * The error taxonomy of src/utils/errors.ts: an `AppError` base class with seven
 * subclasses, each fixing an HTTP status (section 15 of RFC 9110, and section 4 of
 * RFC 6585 for 429) and a default machine-readable code, plus the formatter that turns
 * any thrown error into the `{success: false, error, requestId}` envelope.
 */
module Errors {
  import opened Wrappers

  /** A value stored in an error's `details` record. */
  datatype DetailValue = Text(text: string) | Number(number: int)

  type Details = map<string, DetailValue>

  /** Which constructor built an `AppError`: the base class itself or one of its subclasses. */
  datatype ErrorClass =
    | Base | Validation | Unauthorized | Forbidden | NotFound | Conflict | TooManyRequests | Internal

  /** An `AppError`: its class, `message`, `code`, `statusCode` and optional `details`. */
  datatype AppError = AppError(cls: ErrorClass, message: string, code: string, statusCode: int, details: Option<Details>)

  /**
   * Anything that can be thrown: one of our `AppError`s, or a foreign error (the framework's
   * validation or not-found errors, a database error, any other `Error`) seen only through
   * its `name`, `message` and optional `code`.
   */
  datatype Thrown = App(err: AppError) | Other(name: string, message: string, code: Option<string>)

  /** `this.constructor.name`, which the base constructor stores as the error's `name`. */
  function ClassName(cls: ErrorClass): string {
    match cls
    case Base => "AppError"
    case Validation => "ValidationError"
    case Unauthorized => "UnauthorizedError"
    case Forbidden => "ForbiddenError"
    case NotFound => "NotFoundError"
    case Conflict => "ConflictError"
    case TooManyRequests => "TooManyRequestsError"
    case Internal => "InternalError"
  }

  function Name(t: Thrown): string {
    match t
    case App(e) => ClassName(e.cls)
    case Other(name, _, _) => name
  }

  function Code(t: Thrown): Option<string> {
    match t
    case App(e) => Some(e.code)
    case Other(_, _, code) => code
  }

  function Message(t: Thrown): string {
    match t
    case App(e) => e.message
    case Other(_, message, _) => message
  }

  /** The status each subclass passes to the base constructor. */
  function StatusOf(cls: ErrorClass): (s: int)
    requires cls != Base
    ensures 400 <= s < 600
    ensures s < 500 <==> cls != Internal
  {
    match cls
    case Validation => 400
    case Unauthorized => 401
    case Forbidden => 403
    case NotFound => 404
    case Conflict => 409
    case TooManyRequests => 429
    case Internal => 500
  }

  /** The subclass whose status is `s`, if any: the inverse of `StatusOf`. */
  function ClassOfStatus(s: int): Option<ErrorClass> {
    if s == 400 then Some(Validation)
    else if s == 401 then Some(Unauthorized)
    else if s == 403 then Some(Forbidden)
    else if s == 404 then Some(NotFound)
    else if s == 409 then Some(Conflict)
    else if s == 429 then Some(TooManyRequests)
    else if s == 500 then Some(Internal)
    else None
  }

  /** The status of a subclass identifies the subclass. */
  lemma StatusIdentifiesClass(cls: ErrorClass)
    requires cls != Base
    ensures ClassOfStatus(StatusOf(cls)) == Some(cls)
  {
  }

  /** The `code` parameter's default in each subclass constructor. */
  function DefaultCode(cls: ErrorClass): string
    requires cls != Base
  {
    match cls
    case Validation => "VALIDATION_ERROR"
    case Unauthorized => "UNAUTHORIZED"
    case Forbidden => "FORBIDDEN"
    case NotFound => "NOT_FOUND"
    case Conflict => "CONFLICT"
    case TooManyRequests => "TOO_MANY_REQUESTS"
    case Internal => "INTERNAL_ERROR"
  }

  /** The `message` parameter's default; `ValidationError` and `ConflictError` have none. */
  function DefaultMessage(cls: ErrorClass): Option<string> {
    match cls
    case Unauthorized => Some("Unauthorized")
    case Forbidden => Some("Forbidden")
    case NotFound => Some("Resource not found")
    case TooManyRequests => Some("Too many requests")
    case Internal => Some("Internal server error")
    case _ => None
  }

  /** `new AppError(message, code, statusCode, details)`: every argument is stored unchanged. */
  function NewAppError(message: string, code: string, statusCode: int, details: Option<Details>): (e: AppError)
    ensures e.cls == Base && ClassName(e.cls) == "AppError"
    ensures e.message == message && e.code == code && e.statusCode == statusCode && e.details == details
  {
    AppError(Base, message, code, statusCode, details)
  }

  /**
   * `new XError(message?, code?, details?)` for a subclass X; `None` stands for an omitted
   * (undefined) argument, which takes the parameter's default.
   */
  function NewError(cls: ErrorClass, message: Option<string>, code: Option<string>, details: Option<Details>): (e: AppError)
    requires cls != Base
    requires message.Some? || DefaultMessage(cls).Some?
    ensures e.cls == cls && e.details == details
    ensures e.statusCode == StatusOf(cls) && ClassOfStatus(e.statusCode) == Some(cls)
    ensures code.Some? ==> e.code == code.value
    ensures code.None? ==> e.code == DefaultCode(cls)
    ensures message.Some? ==> e.message == message.value
    ensures message.None? ==> e.message == DefaultMessage(cls).value
  {
    var m := if message.Some? then message.value else DefaultMessage(cls).value;
    NewAppError(m, code.GetOr(DefaultCode(cls)), StatusOf(cls), details)
      .(cls := cls)
  }

  /** The `error` member of an error envelope. */
  datatype ErrorPayload = ErrorPayload(code: string, message: string, details: Option<Details>)

  /** `{success: false, error, requestId}`. */
  datatype ErrorResponse = ErrorResponse(success: bool, error: ErrorPayload, requestId: string)

  const GenericCode := "INTERNAL_ERROR"
  const GenericMessage := "An unexpected error occurred"

  /**
   * `formatErrorResponse(error, requestId)`: an `AppError` shows its own code, message and
   * details; anything else is replaced by a fixed internal-error payload.
   */
  function FormatErrorResponse(t: Thrown, requestId: string): (r: ErrorResponse)
    ensures !r.success && r.requestId == requestId
    ensures t.App? ==> r.error == ErrorPayload(t.err.code, t.err.message, t.err.details)
    ensures t.Other? ==> r.error == ErrorPayload(GenericCode, GenericMessage, None)
  {
    match t
    case App(e) => ErrorResponse(false, ErrorPayload(e.code, e.message, e.details), requestId)
    case Other(_, _, _) => ErrorResponse(false, ErrorPayload(GenericCode, GenericMessage, None), requestId)
  }

  /**
   * Nothing about a foreign error reaches the client: two foreign errors format identically,
   * so in particular the original message never appears in the envelope.
   */
  lemma ForeignErrorsIndistinguishable(t1: Thrown, t2: Thrown, requestId: string)
    requires t1.Other? && t2.Other?
    ensures FormatErrorResponse(t1, requestId) == FormatErrorResponse(t2, requestId)
    ensures FormatErrorResponse(t1, requestId).error.message == GenericMessage
  {
  }
}

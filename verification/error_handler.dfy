/**
 * The global `onError` handler of src/app.ts: the one place where a thrown error becomes a
 * status and an error envelope. Four branches are tried in order: a validation failure,
 * an `AppError`, the framework's route-not-found error, anything else.
 */
module ErrorHandler {
  import opened Wrappers
  import opened Text
  import opened Errors
  import opened UserModel
  import RateLimit
  import Service
  import Schemas

  /** The status `set.status` receives and the envelope returned. */
  datatype ErrorReply = ErrorReply(status: int, body: ErrorResponse)

  datatype Branch = ValidationFailure | ApplicationError | RouteNotFound | Unhandled

  /** Which branch handles `t`: the first whose test succeeds. */
  function BranchOf(t: Thrown): (b: Branch)
    ensures b == ValidationFailure <==> Name(t) == "VALIDATION" || Code(t) == Some("VALIDATION")
    ensures b == ApplicationError <==> t.App? && b != ValidationFailure
    ensures b == RouteNotFound <==> t.Other? && t.code == Some("NOT_FOUND") && b != ValidationFailure
  {
    if Name(t) == "VALIDATION" || Code(t) == Some("VALIDATION") then ValidationFailure
    else if t.App? then ApplicationError
    else if Code(t) == Some("NOT_FOUND") then RouteNotFound
    else Unhandled
  }

  /** `store.requestId || 'unknown'`. */
  function ResolveRequestId(stored: Option<string>): (id: string)
    ensures stored.Some? && stored.value != "" ==> id == stored.value
    ensures stored.None? || stored.value == "" ==> id == "unknown"
  {
    OrIfEmpty(stored, "unknown")
  }

  /** The error the validation branch builds around the framework's message. */
  function ValidationFailed(message: string): (t: Thrown)
    ensures t.App? && t.err.statusCode == 400 && t.err.code == "VALIDATION_ERROR"
  {
    App(NewError(Validation, Some("Validation failed"), Some("VALIDATION_ERROR"), Some(map["message" := Text(message)])))
  }

  /** The error the not-found branch builds. */
  function RouteNotFoundError(): (t: Thrown)
    ensures t.App? && t.err.statusCode == 404 && t.err.code == "NOT_FOUND"
  {
    App(NewError(NotFound, Some("Route not found"), None, None))
  }

  /** The plain `Error` the last branch formats. */
  const InternalServerError: Thrown := Other("Error", "Internal server error", None)

  /** The `onError` handler. */
  function OnError(t: Thrown, storedRequestId: Option<string>): (r: ErrorReply)
    ensures !r.body.success && r.body.requestId == ResolveRequestId(storedRequestId)
    ensures BranchOf(t) == ValidationFailure ==>
              r.status == 400 && r.body.error == ErrorPayload("VALIDATION_ERROR", "Validation failed", Some(map["message" := Text(Message(t))]))
    ensures BranchOf(t) == ApplicationError ==>
              r.status == t.err.statusCode && r.body == FormatErrorResponse(t, ResolveRequestId(storedRequestId))
    ensures BranchOf(t) == RouteNotFound ==>
              r.status == 404 && r.body.error == ErrorPayload("NOT_FOUND", "Route not found", None)
    ensures BranchOf(t) == Unhandled ==>
              r.status == 500 && r.body.error == ErrorPayload(GenericCode, GenericMessage, None)
  {
    var requestId := ResolveRequestId(storedRequestId);
    match BranchOf(t)
    case ValidationFailure => ErrorReply(400, FormatErrorResponse(ValidationFailed(Message(t)), requestId))
    case ApplicationError => ErrorReply(t.err.statusCode, FormatErrorResponse(t, requestId))
    case RouteNotFound => ErrorReply(404, FormatErrorResponse(RouteNotFoundError(), requestId))
    case Unhandled => ErrorReply(500, FormatErrorResponse(InternalServerError, requestId))
  }

  /**
   * The validation test comes first: an `AppError` whose code is `VALIDATION` answers 400
   * with the validation envelope, whatever status it was built with.
   */
  lemma ValidationCheckedFirst(e: AppError, storedRequestId: Option<string>)
    requires e.code == "VALIDATION"
    ensures OnError(App(e), storedRequestId).status == 400
    ensures OnError(App(e), storedRequestId).body.error.code == "VALIDATION_ERROR"
  {
  }

  /** Every reply is an error status when every `AppError` carries one, as all subclasses do. */
  lemma StatusAlwaysAnError(t: Thrown, storedRequestId: Option<string>)
    requires t.App? ==> 400 <= t.err.statusCode < 600
    ensures 400 <= OnError(t, storedRequestId).status < 600
  {
  }

  /**
   * A request refused by the rate limiter answers 429 with code `RATE_LIMIT_EXCEEDED` and
   * the wait in `details.retryAfter`.
   */
  lemma RateLimitRejectionSurfaces(retryAfter: int, storedRequestId: Option<string>)
    ensures var r := OnError(RateLimit.RejectionError(retryAfter), storedRequestId);
            && r.status == 429
            && r.body.error.code == "RATE_LIMIT_EXCEEDED"
            && r.body.error.details == Some(map["retryAfter" := Number(retryAfter)])
            && r.body.requestId == ResolveRequestId(storedRequestId)
  {
  }

  /**
   * The users service's errors reach the client as 409 `EMAIL_EXISTS` and 404
   * `USER_NOT_FOUND`; a database error is hidden behind the generic 500 payload.
   */
  lemma ServiceErrorsSurface(dbError: DbError, storedRequestId: Option<string>)
    ensures var r := OnError(Service.EmailExists, storedRequestId);
            r.status == 409 && r.body.error.code == "EMAIL_EXISTS"
    ensures var r := OnError(Service.UserNotFound, storedRequestId);
            r.status == 404 && r.body.error.code == "USER_NOT_FOUND"
    ensures var r := OnError(DbThrown(dbError), storedRequestId);
            r.status == 500 && r.body.error == ErrorPayload(GenericCode, GenericMessage, None)
  {
  }

  /**
   * A request that fails a route schema, such as a malformed user id, answers 400 with
   * `VALIDATION_ERROR` and the schema's text in `details.message`.
   */
  lemma SchemaRejectionAnswers400(id: string, isUuid: string -> bool, storedRequestId: Option<string>)
    requires !isUuid(id)
    ensures Schemas.CheckIdParam(id, isUuid).Failure?
    ensures var r := OnError(Schemas.CheckIdParam(id, isUuid).error, storedRequestId);
            && r.status == 400
            && r.body.error == ErrorPayload("VALIDATION_ERROR", "Validation failed",
                                            Some(map["message" := Text(Schemas.InvalidIdMessage)]))
  {
  }
}

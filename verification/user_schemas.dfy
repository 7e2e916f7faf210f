/**
 * src/modules/users/users.schemas.ts: the request constraints checked before a users route
 * runs. The `email` and `uuid` string formats are checked by the validation library, which
 * is not part of this model: they are the `isEmail` and `isUuid` parameters.
 */
module Schemas {
  import opened Wrappers
  import opened UserModel
  import opened Pagination
  import opened Errors

  const NameMinLength := 2
  const NameMaxLength := 255
  const EmailMaxLength := 255
  const PageMinimum := 1
  const LimitMinimum := 1
  const LimitMaximum := 100

  /** A name of 2 to 255 characters. */
  predicate ValidName(name: string) {
    NameMinLength <= |name| <= NameMaxLength
  }

  /** An email in the `email` format, of at most 255 characters. */
  predicate ValidEmail(email: string, isEmail: string -> bool) {
    isEmail(email) && |email| <= EmailMaxLength
  }

  /** `createUserSchema`: both fields present and valid. */
  predicate ValidCreateBody(body: NewUser, isEmail: string -> bool)
    ensures ValidCreateBody(body, isEmail) <==> ValidUpdateBody(UserPatch(Some(body.name), Some(body.email)), isEmail)
  {
    ValidName(body.name) && ValidEmail(body.email, isEmail)
  }

  /** `updateUserSchema`: each field may be left out; a field given meets the create constraint. */
  predicate ValidUpdateBody(patch: UserPatch, isEmail: string -> bool)
    ensures ValidUpdateBody(patch, isEmail) <==>
              && (patch.name.Some? ==> 2 <= |patch.name.value| <= 255)
              && (patch.email.Some? ==> |patch.email.value| <= 255 && isEmail(patch.email.value))
  {
    && (patch.name.Some? ==> ValidName(patch.name.value))
    && (patch.email.Some? ==> ValidEmail(patch.email.value, isEmail))
  }

  /** The `error` text of `userIdParamSchema`. */
  const InvalidIdMessage := "Invalid user ID format"

  /**
   * The framework's validation error for a request that fails a schema: a foreign error
   * with code `VALIDATION` whose message is the schema's `error` text.
   */
  function SchemaRejection(message: string): (t: Thrown)
    ensures t.Other? && Code(t) == Some("VALIDATION") && Message(t) == message
  {
    Other("ValidationError", message, Some("VALIDATION"))
  }

  /** `userIdParamSchema`: an id in the `uuid` format passes; any other is rejected with the schema's text. */
  function CheckIdParam(id: string, isUuid: string -> bool): (r: Result<string, Thrown>)
    ensures r.Success? <==> isUuid(id)
    ensures r.Success? ==> r.value == id
    ensures r.Failure? ==> r.error == SchemaRejection(InvalidIdMessage)
  {
    if isUuid(id) then Success(id) else Failure(SchemaRejection(InvalidIdMessage))
  }

  /**
   * `paginationQuerySchema`: `page` at least 1, `limit` in 1..100, each optional; the
   * schema's defaults (1 and 10) are those the list route fills in.
   */
  predicate ValidPaginationQuery(q: Query)
    ensures ValidPaginationQuery(q) <==>
              && (q.page.Some? ==> ParsePaginationParams(q).page == q.page.value)
              && (q.limit.Some? ==> ParsePaginationParams(q).limit == q.limit.value)
  {
    && (q.page.Some? ==> q.page.value >= PageMinimum)
    && (q.limit.Some? ==> LimitMinimum <= q.limit.value <= LimitMaximum)
  }

  /** A body that passed `createUserSchema` always fits the table's columns. */
  lemma CreateBodyFitsColumns(body: NewUser, isEmail: string -> bool)
    requires ValidCreateBody(body, isEmail)
    ensures FitsColumns(body.name, body.email)
  {
  }

  /** Applying a body that passed `updateUserSchema` to a row that fits the columns gives a row that fits them. */
  lemma UpdateBodyFitsColumns(u: User, patch: UserPatch, now: int, isEmail: string -> bool)
    requires ValidUpdateBody(patch, isEmail) && FitsColumns(u.name, u.email)
    ensures var v := Patched(u, patch, now);
            FitsColumns(v.name, v.email)
  {
  }

  /**
   * When the empty string is not an email, a validated update body never carries an empty
   * email, the one input that slips past the service's duplicate check.
   */
  lemma UpdateBodyEmailNonEmpty(patch: UserPatch, isEmail: string -> bool)
    requires ValidUpdateBody(patch, isEmail) && !isEmail("")
    ensures patch.email != Some("")
  {
  }
}

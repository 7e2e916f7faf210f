/**
 * src/modules/users/users.model.ts: the `users` table. A row has a UUID primary key, a name
 * and an email of at most 255 characters each, and two timestamps; a unique index forbids
 * two rows with the same email. Constraint violations are the errors the database raises.
 */
module UserModel {
  import opened Wrappers
  import opened Errors

  /** A row of `users`. Timestamps are milliseconds since the epoch. */
  datatype User = User(id: string, name: string, email: string, createdAt: int, updatedAt: int)

  /** What the service inserts: name and email; id and timestamps take their column defaults. */
  datatype NewUser = NewUser(name: string, email: string)

  /** A partial update: `None` is a field left out of the object. */
  datatype UserPatch = UserPatch(name: Option<string>, email: Option<string>)

  /** The length of the `varchar(255)` columns. */
  const MaxColumnLength := 255

  const EmailIndex := "users_email_unique_idx"
  const PrimaryKey := "users_pkey"

  /** The errors PostgreSQL raises when a write breaks a column or index constraint. */
  datatype DbError =
    | ValueTooLong(column: string)      // SQLSTATE 22001
    | UniqueViolation(constraint: string) // SQLSTATE 23505

  /** A database error as it propagates through the service: a foreign, non-`AppError` error. */
  function DbThrown(e: DbError): (t: Thrown)
    ensures t.Other?
  {
    match e
    case ValueTooLong(column) =>
      Other("PostgresError", "value too long for type character varying(255)", Some("22001"))
    case UniqueViolation(constraint) =>
      Other("PostgresError", "duplicate key value violates unique constraint \"" + constraint + "\"", Some("23505"))
  }

  /** The table, keyed by id. */
  type Table = map<string, User>

  predicate FitsColumns(name: string, email: string) {
    |name| <= MaxColumnLength && |email| <= MaxColumnLength
  }

  /** Each row sits under its own id. */
  predicate KeyedById(t: Table) {
    forall id :: id in t ==> t[id].id == id
  }

  /** The unique index on `email`: no two rows share an email. */
  predicate EmailsUnique(t: Table) {
    forall a, b :: a in t && b in t && t[a].email == t[b].email ==> a == b
  }

  /** Every constraint the table declares holds. */
  predicate TableOk(t: Table) {
    KeyedById(t) && EmailsUnique(t) && forall id :: id in t ==> FitsColumns(t[id].name, t[id].email)
  }

  /** Some row other than `except` has email `email`. */
  predicate EmailHeldByOther(t: Table, email: string, except: Option<string>) {
    exists id :: id in t && t[id].email == email && Some(id) != except
  }

  predicate EmailTaken(t: Table, email: string) {
    EmailHeldByOther(t, email, None)
  }

  /**
   * `INSERT INTO users (name, email) ... RETURNING *` with `id` the generated UUID and both
   * timestamps `now`: the stored row, or the constraint the row would break.
   */
  function InsertOutcome(t: Table, data: NewUser, id: string, now: int): (r: Result<User, DbError>)
    ensures r.Success? <==> FitsColumns(data.name, data.email) && id !in t && !EmailTaken(t, data.email)
    ensures r.Success? ==> r.value == User(id, data.name, data.email, now, now)
    ensures r == Failure(UniqueViolation(EmailIndex)) ==> EmailTaken(t, data.email)
  {
    if !FitsColumns(data.name, data.email) then
      Failure(ValueTooLong(if |data.name| > MaxColumnLength then "name" else "email"))
    else if id in t then Failure(UniqueViolation(PrimaryKey))
    else if EmailTaken(t, data.email) then Failure(UniqueViolation(EmailIndex))
    else Success(User(id, data.name, data.email, now, now))
  }

  /** The row after `SET ...data, updatedAt = now`: supplied fields overwrite, the rest stay. */
  function Patched(u: User, patch: UserPatch, now: int): (v: User)
    ensures v.id == u.id && v.createdAt == u.createdAt && v.updatedAt == now
    ensures v.name == patch.name.GetOr(u.name) && v.email == patch.email.GetOr(u.email)
  {
    u.(name := patch.name.GetOr(u.name), email := patch.email.GetOr(u.email), updatedAt := now)
  }

  /**
   * `UPDATE users SET ... WHERE id = $id RETURNING *`: no row for an absent id, else the
   * updated row or the constraint it would break.
   */
  function UpdateOutcome(t: Table, id: string, patch: UserPatch, now: int): (r: Result<Option<User>, DbError>)
    ensures id !in t ==> r == Success(None)
    ensures r == Success(None) ==> id !in t
    ensures id in t ==>
              (r.Success? <==> FitsColumns(Patched(t[id], patch, now).name, Patched(t[id], patch, now).email)
                               && !EmailHeldByOther(t, Patched(t[id], patch, now).email, Some(id)))
    ensures r.Success? && r.value.Some? ==> id in t && r.value.value == Patched(t[id], patch, now)
    ensures r == Failure(UniqueViolation(EmailIndex)) ==>
              id in t && EmailHeldByOther(t, patch.email.GetOr(t[id].email), Some(id))
  {
    if id !in t then Success(None)
    else
      var v := Patched(t[id], patch, now);
      if !FitsColumns(v.name, v.email) then
        Failure(ValueTooLong(if |v.name| > MaxColumnLength then "name" else "email"))
      else if EmailHeldByOther(t, v.email, Some(id)) then Failure(UniqueViolation(EmailIndex))
      else Success(Some(v))
  }

  /** The table after a write: the written row replaces whatever sat under its id. */
  function AfterWrite(t: Table, r: Result<User, DbError>): Table {
    if r.Success? then t[r.value.id := r.value] else t
  }

  /** A successful insert keeps every table constraint. */
  lemma InsertKeepsConstraints(t: Table, data: NewUser, id: string, now: int)
    requires TableOk(t)
    ensures TableOk(AfterWrite(t, InsertOutcome(t, data, id, now)))
  {
  }

  /** A successful update keeps every table constraint. */
  lemma UpdateKeepsConstraints(t: Table, id: string, patch: UserPatch, now: int)
    requires TableOk(t)
    requires UpdateOutcome(t, id, patch, now).Success? && UpdateOutcome(t, id, patch, now).value.Some?
    ensures TableOk(t[id := UpdateOutcome(t, id, patch, now).value.value])
  {
    var v := UpdateOutcome(t, id, patch, now).value.value;
    assert !EmailHeldByOther(t, v.email, Some(id));
  }
}

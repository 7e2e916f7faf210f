/**
 * src/modules/users/users.service.ts: the business rules over the repository. Email
 * uniqueness is checked before create and before an email-changing update, absent ids fail
 * with `USER_NOT_FOUND`, and the list operation adds the page count.
 */
module Service {
  import opened Wrappers
  import opened Errors
  import opened UserModel
  import opened Repository
  import Pagination

  /** `new ConflictError('User with this email already exists', 'EMAIL_EXISTS')`. */
  const EmailExists: Thrown := App(NewError(Conflict, Some("User with this email already exists"), Some("EMAIL_EXISTS"), None))

  /** `new NotFoundError('User not found', 'USER_NOT_FOUND')`. */
  const UserNotFound: Thrown := App(NewError(NotFound, Some("User not found"), Some("USER_NOT_FOUND"), None))

  /** What `getAllUsers` returns: the repository's page and count, the query, and the page count. */
  datatype UsersPage = UsersPage(data: seq<User>, total: nat, page: int, limit: int, totalPages: int)

  /** The error the unique index raises; the service's pre-checks are there so that callers never see it. */
  const EmailIndexViolation: Thrown := DbThrown(UniqueViolation(EmailIndex))

  /** A database outcome as the service passes it on: a database error is rethrown as it is. */
  function Rethrow<T>(r: Result<T, DbError>): (s: Result<T, Thrown>)
    ensures r.Success? ==> s == Success(r.value)
    ensures r.Failure? ==> s == Failure(DbThrown(r.error))
  {
    if r.Success? then Success(r.value) else Failure(DbThrown(r.error))
  }

  /** The email check of `updateUser`: a non-empty new email that differs from the current one and is taken. */
  predicate EmailChangeConflicts(t: Table, id: string, patch: UserPatch)
    requires id in t
    ensures EmailChangeConflicts(t, id, patch) ==> patch.email.Some? && EmailHeldByOther(t, patch.email.value, Some(id))
    ensures TableOk(t) && patch.email.Some? && patch.email.value != "" && EmailHeldByOther(t, patch.email.value, Some(id)) ==>
              EmailChangeConflicts(t, id, patch)
  {
    patch.email.Some? && patch.email.value != "" && patch.email.value != t[id].email && EmailTaken(t, patch.email.value)
  }

  /**
   * Resubmitting a row's own email skips the duplicate check, and the update goes through
   * whenever the new name fits its column.
   */
  lemma OwnEmailResubmission(t: Table, id: string, name: Option<string>, now: int)
    requires TableOk(t) && id in t
    requires FitsColumns(name.GetOr(t[id].name), t[id].email)
    ensures !EmailChangeConflicts(t, id, UserPatch(name, Some(t[id].email)))
    ensures UpdateOutcome(t, id, UserPatch(name, Some(t[id].email)), now)
              == Success(Some(Patched(t[id], UserPatch(name, Some(t[id].email)), now)))
  {
  }

  class UsersService {
    const repository: UsersRepository

    constructor(repository: UsersRepository)
      ensures this.repository == repository
    {
      this.repository := repository;
    }

    /**
     * `createUser(data)`: fails with `EMAIL_EXISTS` and writes nothing when the email is
     * taken; otherwise inserts the row, so the unique index never fires.
     */
    method CreateUser(data: NewUser, freshId: string, now: int) returns (r: Result<User, Thrown>)
      requires repository.Valid()
      modifies repository
      ensures repository.Valid()
      ensures EmailTaken(old(repository.rows), data.email) ==>
                r == Failure(EmailExists) && repository.rows == old(repository.rows)
      ensures !EmailTaken(old(repository.rows), data.email) ==>
                var ins := InsertOutcome(old(repository.rows), data, freshId, now);
                r == Rethrow(ins) && repository.rows == AfterWrite(old(repository.rows), ins)
      ensures r != Failure(EmailIndexViolation)
      ensures r.Success? ==> r.value == User(freshId, data.name, data.email, now, now)
                             && freshId !in old(repository.rows)
                             && repository.rows == old(repository.rows)[freshId := r.value]
    {
      var existing := repository.FindByEmail(data.email);
      if existing.Some? {
        return Failure(EmailExists);
      }
      var ins := repository.Create(data, freshId, now);
      r := Rethrow(ins);
    }

    /** `getUserById(id)`: the stored row, or `USER_NOT_FOUND`. */
    method GetUserById(id: string) returns (r: Result<User, Thrown>)
      requires repository.Valid()
      ensures id in repository.rows ==> r == Success(repository.rows[id]) && r.value.id == id
      ensures id !in repository.rows ==> r == Failure(UserNotFound)
    {
      var user := repository.FindById(id);
      if user.None? {
        return Failure(UserNotFound);
      }
      r := Success(user.value);
    }

    /**
     * `getAllUsers({page, limit})`: echoes the query, passes the page and the count through
     * and adds `totalPages = ceil(total / limit)`; a page past the last one is empty.
     */
    method GetAllUsers(page: int, limit: int) returns (r: UsersPage)
      requires repository.Valid()
      requires page >= 1 && limit >= 1
      ensures r.page == page && r.limit == limit && r.total == |repository.rows|
      ensures r.data == Window(repository.Listing(), Pagination.CalculateOffset(Pagination.Params(page, limit)), limit)
      ensures r.totalPages == Pagination.CalculatePaginationMeta(r.total, Pagination.Params(page, limit)).totalPages
      ensures page > r.totalPages ==> r.data == []
      ensures page <= r.totalPages ==> |r.data| >= 1
    {
      var data, total := repository.FindAll(page, limit);
      var params := Pagination.Params(page, limit);
      var totalPages := Pagination.TotalPages(total, limit);
      assert totalPages == Pagination.CalculatePaginationMeta(total, params).totalPages;
      Pagination.PageInRangeIffNonEmpty(total, params);
      assert page <= totalPages <==> Pagination.CalculateOffset(params) < |repository.Listing()|;
      r := UsersPage(data, total, page, limit, totalPages);
    }

    /**
     * `updateUser(id, data)`: `USER_NOT_FOUND` for an absent id and `EMAIL_EXISTS` for a
     * changed email that another row holds, both before any write; otherwise the row's
     * supplied fields and `updatedAt` are overwritten.
     */
    method UpdateUser(id: string, patch: UserPatch, now: int) returns (r: Result<User, Thrown>)
      requires repository.Valid()
      modifies repository
      ensures repository.Valid()
      ensures id !in old(repository.rows) ==>
                r == Failure(UserNotFound) && repository.rows == old(repository.rows)
      ensures id in old(repository.rows) && EmailChangeConflicts(old(repository.rows), id, patch) ==>
                r == Failure(EmailExists) && repository.rows == old(repository.rows)
      ensures id in old(repository.rows) && !EmailChangeConflicts(old(repository.rows), id, patch) ==>
                var upd := UpdateOutcome(old(repository.rows), id, patch, now);
                && (upd.Failure? ==> r == Failure(DbThrown(upd.error)) && repository.rows == old(repository.rows))
                && (upd.Success? ==> r == Success(Patched(old(repository.rows)[id], patch, now)))
      ensures r.Success? ==> id in old(repository.rows)
                             && r.value == Patched(old(repository.rows)[id], patch, now)
                             && repository.rows == old(repository.rows)[id := r.value]
      ensures patch.email != Some("") ==> r != Failure(EmailIndexViolation)
    {
      var existing := repository.FindById(id);
      if existing.None? {
        return Failure(UserNotFound);
      }
      if patch.email.Some? && patch.email.value != "" && patch.email.value != existing.value.email {
        var owner := repository.FindByEmail(patch.email.value);
        if owner.Some? {
          return Failure(EmailExists);
        }
      }
      var upd := repository.Update(id, patch, now);
      match upd {
        case Failure(e) =>
          r := Failure(DbThrown(e));
        case Success(None) =>
          r := Failure(UserNotFound);
        case Success(Some(u)) =>
          r := Success(u);
      }
    }

    /** `deleteUser(id)`: removes the row, or fails with `USER_NOT_FOUND` when there was none. */
    method DeleteUser(id: string) returns (r: Result<(), Thrown>)
      requires repository.Valid()
      modifies repository
      ensures repository.Valid()
      ensures r == if id in old(repository.rows) then Success(()) else Failure(UserNotFound)
      ensures repository.rows == old(repository.rows) - {id}
    {
      var deleted := repository.Delete(id);
      if !deleted {
        return Failure(UserNotFound);
      }
      r := Success(());
    }
  }

  /**
   * The life of one user, as the end-to-end tests walk it: create, read back, rename,
   * delete, and read again, which now fails with `USER_NOT_FOUND`.
   */
  method UserLifecycle(name: string, email: string, newName: string, freshId: string, t0: int, t1: int)
    returns (created: Result<User, Thrown>, fetched: Result<User, Thrown>, renamed: Result<User, Thrown>,
             deleted: Result<(), Thrown>, refetched: Result<User, Thrown>)
    requires FitsColumns(name, email) && FitsColumns(newName, email)
    ensures created == Success(User(freshId, name, email, t0, t0))
    ensures fetched == created
    ensures renamed == Success(User(freshId, newName, email, t0, t1))
    ensures deleted == Success(())
    ensures refetched == Failure(UserNotFound)
  {
    var repository := new UsersRepository();
    var service := new UsersService(repository);
    var u := User(freshId, name, email, t0, t0);
    assert !EmailTaken(repository.rows, email);
    created := service.CreateUser(NewUser(name, email), freshId, t0);
    assert repository.rows == map[freshId := u];
    fetched := service.GetUserById(freshId);
    renamed := service.UpdateUser(freshId, UserPatch(Some(newName), None), t1);
    assert !EmailChangeConflicts(map[freshId := u], freshId, UserPatch(Some(newName), None));
    assert repository.rows == map[freshId := User(freshId, newName, email, t0, t1)];
    deleted := service.DeleteUser(freshId);
    assert repository.rows == map[];
    refetched := service.GetUserById(freshId);
  }
}

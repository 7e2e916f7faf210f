/**
 * src/modules/users/users.controller.ts, with the two pieces of logic in
 * src/modules/users/users.routes.ts: each controller method awaits one service call and
 * wraps its result in a success envelope; nothing is caught, so a failed service call
 * fails the controller call with the same error. The route sets status 201 for a create
 * and fills in `page ?? 1` and `limit ?? 10` for a list.
 */
module Controller {
  import opened Wrappers
  import opened Errors
  import opened UserModel
  import opened Pagination
  import opened Service
  import Schemas
  import Responses

  /** The `{deleted: true}` payload of a delete. */
  datatype Deleted = Deleted(deleted: bool)

  /** A success envelope and the status the route answers with. */
  datatype Reply<T> = Reply(status: int, body: Responses.SuccessResponse<T>)

  /** `successResponse(user, requestId)` around a service result, as `getById` and `update` return it. */
  function WrapUser(outcome: Result<User, Thrown>, requestId: string): (r: Result<Responses.SuccessResponse<User>, Thrown>)
    ensures outcome.Failure? ==> r == Failure(outcome.error)
    ensures outcome.Success? ==> r.Success? && r.value.success && r.value.data == outcome.value && r.value.requestId == requestId
  {
    match outcome
    case Failure(e) => Failure(e)
    case Success(user) => Success(Responses.Success(user, requestId))
  }

  /** `POST /users`: the created user in the envelope, answered with status 201. */
  function Create(outcome: Result<User, Thrown>, requestId: string): (r: Result<Reply<User>, Thrown>)
    ensures outcome.Failure? ==> r == Failure(outcome.error)
    ensures outcome.Success? ==> r.Success? && r.value.status == 201
    ensures outcome.Success? ==> r.value.body == Responses.SuccessResponse(true, outcome.value, requestId)
  {
    match outcome
    case Failure(e) => Failure(e)
    case Success(user) => Success(Reply(201, Responses.Success(user, requestId, 201)))
  }

  /** `getAll`: the page's users unchanged, with `page`, `limit`, `total` and `totalPages` copied. */
  function GetAll(result: UsersPage, requestId: string): (r: Responses.PaginatedResponse<User>)
    ensures r.success && r.data == result.data && r.requestId == requestId
    ensures r.pagination.page == result.page && r.pagination.limit == result.limit
    ensures r.pagination.total == result.total && r.pagination.totalPages == result.totalPages
  {
    Responses.Paginated(result.data, Responses.PageInfo(result.page, result.limit, result.total, result.totalPages), requestId)
  }

  /** `delete`: `{deleted: true}`, and only once the service delete succeeded. */
  function Delete(outcome: Result<(), Thrown>, requestId: string): (r: Result<Responses.SuccessResponse<Deleted>, Thrown>)
    ensures outcome.Failure? ==> r == Failure(outcome.error)
    ensures outcome.Success? ==> r == Success(Responses.SuccessResponse(true, Deleted(true), requestId))
  {
    match outcome
    case Failure(e) => Failure(e)
    case Success(_) => Success(Responses.Success(Deleted(true), requestId))
  }

  /** `GET /users`: `query.page ?? 1` and `query.limit ?? 10`; a value given, even 0, is kept. */
  function ListOptions(q: Query): (p: Params)
    ensures q.page.Some? ==> p.page == q.page.value
    ensures q.page.None? ==> p.page == DefaultParams.page
    ensures q.limit.Some? ==> p.limit == q.limit.value
    ensures q.limit.None? ==> p.limit == DefaultParams.limit
  {
    Params(q.page.GetOr(1), q.limit.GetOr(10))
  }

  /**
   * The route's `??` defaults and `parsePaginationParams`' `||` defaults and clamping agree
   * on every query the schema accepts.
   */
  lemma RouteDefaultsAgreeWithParser(q: Query)
    requires Schemas.ValidPaginationQuery(q)
    ensures ListOptions(q) == ParsePaginationParams(q)
  {
  }

  /**
   * A delete that succeeded and a lookup that followed it: the delete answers
   * `{deleted: true}` and the lookup fails with `USER_NOT_FOUND`.
   */
  method DeleteThenGet(service: UsersService, id: string, requestId: string)
    returns (deleted: Result<Responses.SuccessResponse<Deleted>, Thrown>, fetched: Result<Responses.SuccessResponse<User>, Thrown>)
    requires service.repository.Valid() && id in service.repository.rows
    modifies service.repository
    ensures deleted == Success(Responses.SuccessResponse(true, Deleted(true), requestId))
    ensures fetched == Failure(UserNotFound)
  {
    var d := service.DeleteUser(id);
    deleted := Delete(d, requestId);
    var g := service.GetUserById(id);
    fetched := WrapUser(g, requestId);
  }
}

/** src/utils/response.ts: the success envelopes. */
module Responses {

  /** `{success: true, data, requestId}`; the record has exactly these three fields. */
  datatype SuccessResponse<T> = SuccessResponse(success: bool, data: T, requestId: string)

  /** The `pagination` member of a list envelope. */
  datatype PageInfo = PageInfo(page: int, limit: int, total: int, totalPages: int)

  /** `{success: true, data, pagination, requestId}`. */
  datatype PaginatedResponse<T> = PaginatedResponse(success: bool, data: seq<T>, pagination: PageInfo, requestId: string)

  /** `successResponse(data, requestId, _statusCode)`: data and request id are carried unchanged. */
  function Success<T>(data: T, requestId: string, statusCode: int := 200): (r: SuccessResponse<T>)
    ensures r.success && r.data == data && r.requestId == requestId
  {
    SuccessResponse(true, data, requestId)
  }

  /** The status-code argument is unused: the envelope does not depend on it. */
  lemma StatusCodeIgnored<T>(data: T, requestId: string, s1: int, s2: int)
    ensures Success(data, requestId, s1) == Success(data, requestId, s2)
  {
  }

  /** `paginatedResponse(data, pagination, requestId)`: all three are carried unchanged. */
  function Paginated<T>(data: seq<T>, pagination: PageInfo, requestId: string): (r: PaginatedResponse<T>)
    ensures r.success && r.data == data && r.pagination == pagination && r.requestId == requestId
  {
    PaginatedResponse(true, data, pagination, requestId)
  }
}

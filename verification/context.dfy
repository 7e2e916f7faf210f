/**
 * The state the middlewares share: the fields they write into the framework's `store` and
 * the response's `set.status` and `set.headers`. Elysia's `store` is one object for the
 * whole application, which concurrent requests overwrite; here each request gets its own
 * object, as if requests were handled one at a time.
 */
module Context {
  import opened Wrappers

  class RequestContext {
    /** `store.requestId`, written by the request-id middleware. */
    var requestId: Option<string>
    /** `store.startTime`, written by the logger. */
    var startTime: Option<int>
    /** `store.rateLimitRemaining` and `store.rateLimitReset`, written by the rate limiter. */
    var rateLimitRemaining: Option<int>
    var rateLimitReset: Option<int>
    /** `set.status`. */
    var status: Option<int>
    /** `set.headers`. */
    var headers: map<string, string>

    constructor()
      ensures requestId == None && startTime == None && status == None
      ensures rateLimitRemaining == None && rateLimitReset == None && headers == map[]
    {
      requestId, startTime, status := None, None, None;
      rateLimitRemaining, rateLimitReset := None, None;
      headers := map[];
    }
  }
}

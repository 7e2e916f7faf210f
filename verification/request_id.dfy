/**
 * src/middlewares/requestId.ts: every request carries an identifier. An incoming
 * `x-request-id` header that is present and not empty is reused (so traces can span
 * services); otherwise a freshly generated UUID is used. The identifier is kept in the
 * request store and echoed as the `X-Request-Id` response header. The UUID generator is
 * outside the model: its result is the `generated` parameter.
 */
module RequestId {
  import opened Wrappers
  import opened Context

  const IncomingHeader := "x-request-id"
  const ResponseHeader := "X-Request-Id"

  /** `headers['x-request-id'] || generateRequestId()`. */
  function ChooseRequestId(headers: map<string, string>, generated: string): (id: string)
    ensures IncomingHeader in headers && headers[IncomingHeader] != "" ==> id == headers[IncomingHeader]
    ensures !(IncomingHeader in headers && headers[IncomingHeader] != "") ==> id == generated
    ensures generated != "" ==> id != ""
  {
    if IncomingHeader in headers && headers[IncomingHeader] != "" then headers[IncomingHeader] else generated
  }

  /** The `derive` hook: picks the identifier, stores it and hands it to the handler. */
  method Derive(ctx: RequestContext, headers: map<string, string>, generated: string) returns (requestId: string)
    modifies ctx`requestId
    ensures requestId == ChooseRequestId(headers, generated)
    ensures ctx.requestId == Some(requestId)
  {
    requestId := ChooseRequestId(headers, generated);
    ctx.requestId := Some(requestId);
  }

  /** The `onAfterHandle` hook: writes the stored identifier to the response headers. */
  method OnAfterHandle(ctx: RequestContext)
    requires ctx.requestId.Some?
    modifies ctx`headers
    ensures ctx.headers == old(ctx.headers)[ResponseHeader := ctx.requestId.value]
  {
    ctx.headers := ctx.headers[ResponseHeader := ctx.requestId.value];
  }

  /**
   * A request through both hooks: the response echoes the caller's non-empty identifier,
   * or else carries the generated one, and the store holds the same value.
   */
  method EchoRequestId(headers: map<string, string>, generated: string) returns (ctx: RequestContext)
    ensures ResponseHeader in ctx.headers && ctx.requestId == Some(ctx.headers[ResponseHeader])
    ensures IncomingHeader in headers && headers[IncomingHeader] != "" ==>
              ctx.headers[ResponseHeader] == headers[IncomingHeader]
    ensures !(IncomingHeader in headers && headers[IncomingHeader] != "") ==>
              ctx.headers[ResponseHeader] == generated
  {
    ctx := new RequestContext();
    var _ := Derive(ctx, headers, generated);
    OnAfterHandle(ctx);
  }
}

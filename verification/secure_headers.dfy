/**
 * src/middlewares/secureHeaders.ts: after every handled request the response gets a fixed
 * set of security and no-cache headers; Strict-Transport-Security (section 6.1 of
 * RFC 6797) is added only in production.
 */
module SecureHeaders {
  import opened Context

  const ContentTypeOptions := "nosniff"
  const FrameOptions := "DENY"
  const ReferrerPolicy := "strict-origin-when-cross-origin"
  const PermissionsPolicy := "accelerometer=(), camera=(), geolocation=(), gyroscope=(), magnetometer=(), microphone=(), payment=(), usb=()"
  const ContentSecurityPolicy := "default-src 'none'; frame-ancestors 'none'; base-uri 'none'; form-action 'none'"
  const XssProtection := "1; mode=block"
  const HstsPolicy := "max-age=31536000; includeSubDomains; preload"
  const CacheControl := "no-store, no-cache, must-revalidate, proxy-revalidate"
  const Pragma := "no-cache"
  const Expires := "0"

  const HstsHeader := "Strict-Transport-Security"

  /** The headers set before the HSTS decision, in every environment. */
  function LeadingHeaders(): map<string, string> {
    map[
      "X-Content-Type-Options" := ContentTypeOptions,
      "X-Frame-Options" := FrameOptions,
      "Referrer-Policy" := ReferrerPolicy,
      "Permissions-Policy" := PermissionsPolicy,
      "Content-Security-Policy" := ContentSecurityPolicy,
      "X-XSS-Protection" := XssProtection]
  }

  /** The no-cache headers set after the HSTS decision, in every environment. */
  function TrailingHeaders(): map<string, string> {
    map["Cache-Control" := CacheControl, "Pragma" := Pragma, "Expires" := Expires]
  }

  /** Strict-Transport-Security, present only in production. */
  function TransportHeaders(isProduction: bool): map<string, string> {
    if isProduction then map[HstsHeader := HstsPolicy] else map[]
  }

  /** Everything the middleware writes for the given environment, in the order it writes it. */
  function SecurityHeaders(isProduction: bool): (h: map<string, string>)
    ensures HstsHeader in h <==> isProduction
    ensures isProduction ==> h[HstsHeader] == HstsPolicy
    ensures forall k :: k in LeadingHeaders() ==> k in h && h[k] == LeadingHeaders()[k]
    ensures forall k :: k in TrailingHeaders() ==> k in h && h[k] == TrailingHeaders()[k]
    ensures h.Keys == LeadingHeaders().Keys + TrailingHeaders().Keys + (if isProduction then {HstsHeader} else {})
  {
    LeadingHeaders() + (TransportHeaders(isProduction) + TrailingHeaders())
  }

  /** Merging maps is associative. */
  lemma MergeAssociative(a: map<string, string>, b: map<string, string>, c: map<string, string>)
    ensures a + (b + c) == (a + b) + c
  {
  }

  /**
   * The `onAfterHandle` hook: the headers one after another, as the source sets them. The
   * policy headers overwrite any earlier value; every other header stays.
   */
  method OnAfterHandle(ctx: RequestContext, isProduction: bool)
    modifies ctx`headers
    ensures ctx.headers == old(ctx.headers) + SecurityHeaders(isProduction)
  {
    var h := ctx.headers;
    h := h["X-Content-Type-Options" := ContentTypeOptions];
    h := h["X-Frame-Options" := FrameOptions];
    h := h["Referrer-Policy" := ReferrerPolicy];
    h := h["Permissions-Policy" := PermissionsPolicy];
    h := h["Content-Security-Policy" := ContentSecurityPolicy];
    h := h["X-XSS-Protection" := XssProtection];
    assert h == old(ctx.headers) + LeadingHeaders();
    if isProduction {
      h := h[HstsHeader := HstsPolicy];
    }
    assert h == old(ctx.headers) + LeadingHeaders() + TransportHeaders(isProduction);
    ghost var middle := h;
    h := h["Cache-Control" := CacheControl];
    h := h["Pragma" := Pragma];
    h := h["Expires" := Expires];
    assert h == middle + TrailingHeaders();
    MergeAssociative(old(ctx.headers), LeadingHeaders(), TransportHeaders(isProduction) + TrailingHeaders());
    MergeAssociative(old(ctx.headers) + LeadingHeaders(), TransportHeaders(isProduction), TrailingHeaders());
    ctx.headers := h;
  }

  /** Headers the middleware does not own pass through unchanged, in either environment. */
  lemma OtherHeadersUntouched(before: map<string, string>, isProduction: bool, k: string)
    requires k in before && k !in LeadingHeaders() && k !in TrailingHeaders() && k != HstsHeader
    ensures k in before + SecurityHeaders(isProduction)
    ensures (before + SecurityHeaders(isProduction))[k] == before[k]
  {
  }
}

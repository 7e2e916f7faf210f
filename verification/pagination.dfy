/** src/utils/pagination.ts: clamping of page/limit, page metadata and row offsets. */
module Pagination {
  import opened Wrappers
  import opened Numbers

  datatype Params = Params(page: int, limit: int)

  /** A pagination query; `None` is a missing field. */
  datatype Query = Query(page: Option<int>, limit: Option<int>)

  datatype Meta = Meta(page: int, limit: int, total: int, totalPages: int, hasNextPage: bool, hasPrevPage: bool)

  const DefaultParams := Params(1, 10)
  const MaxLimit := 100

  /** JavaScript's `x || d` on a number: a missing or zero `x` gives `d`. */
  function OrDefault(x: Option<int>, d: int): (r: int)
    ensures x.Some? && x.value != 0 ==> r == x.value
    ensures x.None? || x.value == 0 ==> r == d
  {
    if x.Some? && x.value != 0 then x.value else d
  }

  /**
   * `parsePaginationParams(query, defaults)`: a page of at least 1 and a limit in 1..100;
   * an acceptable value is kept, an out-of-range one is clamped, and a missing or zero one
   * falls back to the default (itself clamped).
   */
  function ParsePaginationParams(q: Query, defaults: Params := DefaultParams): (p: Params)
    ensures p.page >= 1
    ensures 1 <= p.limit <= MaxLimit
    ensures q.page.Some? && q.page.value >= 1 ==> p.page == q.page.value
    ensures q.page.Some? && q.page.value < 0 ==> p.page == 1
    ensures q.page.None? || q.page.value == 0 ==> p.page == Max(1, defaults.page)
    ensures q.limit.Some? && 1 <= q.limit.value <= MaxLimit ==> p.limit == q.limit.value
    ensures q.limit.Some? && q.limit.value > MaxLimit ==> p.limit == MaxLimit
    ensures q.limit.Some? && q.limit.value < 0 ==> p.limit == 1
    ensures q.limit.None? || q.limit.value == 0 ==> p.limit == Min(MaxLimit, Max(1, defaults.limit))
  {
    Params(Max(1, OrDefault(q.page, defaults.page)), Min(MaxLimit, Max(1, OrDefault(q.limit, defaults.limit))))
  }

  /** Parsing already-parsed parameters changes nothing, whatever the defaults. */
  lemma ParseIdempotent(q: Query, d: Params, d': Params)
    ensures var p := ParsePaginationParams(q, d);
            ParsePaginationParams(Query(Some(p.page), Some(p.limit)), d') == p
  {
  }

  /** `Math.ceil(total / limit)`. */
  function TotalPages(total: int, limit: int): (n: int)
    requires limit >= 1
    ensures (n - 1) * limit < total <= n * limit
  {
    CeilDiv(total, limit)
  }

  /**
   * `calculatePaginationMeta(total, params)`: the query fields are copied, the page count is
   * the least number of pages of `limit` rows that hold `total` rows, and the flags say
   * whether a later or an earlier page exists.
   */
  function CalculatePaginationMeta(total: nat, p: Params): (m: Meta)
    requires p.limit >= 1
    ensures m.page == p.page && m.limit == p.limit && m.total == total
    ensures m.totalPages >= 0 && (m.totalPages - 1) * p.limit < total <= m.totalPages * p.limit
    ensures total == 0 ==> m.totalPages == 0
    ensures m.hasNextPage <==> p.page < m.totalPages
    ensures m.hasPrevPage <==> p.page > 1
  {
    var totalPages := TotalPages(total, p.limit);
    CeilDivNonNegative(total, p.limit);
    Meta(p.page, p.limit, total, totalPages, p.page < totalPages, p.page > 1)
  }

  /** `calculateOffset(params)`: the rows on the pages before `page`. */
  function CalculateOffset(p: Params): (o: int)
    ensures p.page >= 1 && p.limit >= 0 ==> o >= 0
    ensures p.page == 1 ==> o == 0
  {
    assert p.page >= 1 && p.limit >= 0 ==> (p.page - 1) * p.limit >= 0 by {
      if p.page >= 1 && p.limit >= 0 { MulMonotone(0, p.page - 1, p.limit); }
    }
    (p.page - 1) * p.limit
  }

  /** Consecutive pages start `limit` rows apart. */
  lemma OffsetStep(p: Params)
    ensures CalculateOffset(Params(p.page + 1, p.limit)) == CalculateOffset(p) + p.limit
  {
  }

  /**
   * A page within `1..totalPages` starts before the last row, and a page past `totalPages`
   * starts at or after it, so it holds no rows.
   */
  lemma {:induction false} PageInRangeIffNonEmpty(total: nat, p: Params)
    requires p.limit >= 1 && p.page >= 1
    ensures var n := CalculatePaginationMeta(total, p).totalPages;
            p.page <= n <==> CalculateOffset(p) < total
  {
    var n := CalculatePaginationMeta(total, p).totalPages;
    var o := CalculateOffset(p);
    assert o == (p.page - 1) * p.limit;
    if p.page <= n {
      MulMonotone(p.page - 1, n - 1, p.limit);
    } else {
      MulMonotone(n, p.page - 1, p.limit);
    }
  }
}

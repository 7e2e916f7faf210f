/**
 * src/middlewares/rateLimit.ts: a fixed-window request counter per client key. The first
 * request of a window opens it with count 1; each later request in the window adds one, and
 * a count above the maximum is refused with status 429 (section 4 of RFC 6585). A periodic
 * sweep drops entries whose window has ended. Time is the `now` parameter, in milliseconds.
 */
module RateLimit {
  import opened Wrappers
  import opened Numbers
  import opened Text
  import opened Errors
  import opened Context

  /** A client's window: requests counted so far and the instant the window ends. */
  datatype Entry = Entry(count: int, resetTime: int)

  type Store = map<string, Entry>

  /** What a check decided: limiting is off, the request goes on, or it is refused. */
  datatype Decision = Disabled | Allowed(entry: Entry) | Rejected(entry: Entry, retryAfter: int)

  const ForwardedForHeader := "x-forwarded-for"
  const RealIpHeader := "x-real-ip"
  const LoopbackIp := "127.0.0.1"

  /** A header that is present and not empty (JavaScript truthiness of a string). */
  predicate HasValue(headers: map<string, string>, name: string) {
    name in headers && headers[name] != ""
  }

  /**
   * `getClientIp(headers)`: the first comma-separated element of `x-forwarded-for`, trimmed;
   * else `x-real-ip` as it is; else the loopback address.
   */
  function ClientIp(headers: map<string, string>): (ip: string)
    ensures HasValue(headers, ForwardedForHeader) ==>
              ip == Trim(FirstField(headers[ForwardedForHeader], ',')) && ',' !in ip
    ensures !HasValue(headers, ForwardedForHeader) && HasValue(headers, RealIpHeader) ==>
              ip == headers[RealIpHeader]
    ensures !HasValue(headers, ForwardedForHeader) && !HasValue(headers, RealIpHeader) ==>
              ip == LoopbackIp
  {
    if HasValue(headers, ForwardedForHeader) then
      var first := FirstField(headers[ForwardedForHeader], ',');
      var ip := Trim(first);
      TrimStaysInside(first, ',');
      ip
    else if HasValue(headers, RealIpHeader) then headers[RealIpHeader]
    else LoopbackIp
  }

  /** Trimming only removes characters, so a character absent before is absent after. */
  lemma TrimStaysInside(s: string, c: char)
    requires c !in s
    ensures c !in Trim(s)
  {
    var t := TrimStart(s);
    assert c !in t;
  }

  /** An entry whose window has not ended: `resetTime < now` is the only expiry test. */
  predicate Live(store: Store, key: string, now: int) {
    key in store && store[key].resetTime >= now
  }

  /** `Math.ceil((resetTime - now) / 1000)`: whole seconds until the window ends. */
  function RetryAfter(resetTime: int, now: int): int {
    CeilDiv(resetTime - now, 1000)
  }

  /**
   * One check of `onBeforeHandle` for client `key` at time `now`: the decision and the
   * store afterwards. Only `key`'s entry can change.
   */
  function Step(store: Store, key: string, max: int, windowMs: int, now: int): (r: (Decision, Store))
    ensures max == 0 <==> r.0.Disabled?
    ensures max == 0 ==> r.1 == store
    ensures max != 0 ==> key in r.1 && r.0.entry == r.1[key]
    ensures r.1.Keys <= store.Keys + {key}
    ensures forall k :: k in store && k != key ==> k in r.1 && r.1[k] == store[k]
  {
    if max == 0 then (Disabled, store)
    else if !Live(store, key, now) then
      var e := Entry(1, now + windowMs);
      (Allowed(e), store[key := e])
    else
      var e := store[key].(count := store[key].count + 1);
      var d := if e.count > max then Rejected(e, RetryAfter(e.resetTime, now)) else Allowed(e);
      (d, store[key := e])
  }

  /** The error a refused request throws: `TooManyRequestsError` with code `RATE_LIMIT_EXCEEDED`. */
  function RejectionError(retryAfter: int): (t: Thrown)
    ensures t.App? && t.err.statusCode == 429 && t.err.code == "RATE_LIMIT_EXCEEDED"
    ensures t.err.details == Some(map["retryAfter" := Number(retryAfter)])
  {
    App(NewError(TooManyRequests,
                 Some("Rate limit exceeded. Try again in " + IntToString(retryAfter) + " seconds."),
                 Some("RATE_LIMIT_EXCEEDED"),
                 Some(map["retryAfter" := Number(retryAfter)])))
  }

  /** The store after the periodic cleanup at time `now`. */
  function Swept(store: Store, now: int): (r: Store)
    ensures forall k :: k in r <==> k in store && store[k].resetTime >= now
    ensures forall k :: k in r ==> r[k] == store[k]
  {
    map k | k in store && store[k].resetTime >= now :: store[k]
  }

  /** The first request of a window is let through with count 1, whatever the maximum (unless limiting is off). */
  lemma FirstRequestAllowed(store: Store, key: string, max: int, windowMs: int, now: int)
    requires max != 0 && !Live(store, key, now)
    ensures Step(store, key, max, windowMs, now).0 == Allowed(Entry(1, now + windowMs))
  {
  }

  /**
   * In a live window the count rises by exactly one, the window's end stays, the new count
   * is stored even when the request is refused, and the request is refused exactly when the
   * new count exceeds the maximum.
   */
  lemma LiveWindowCounts(store: Store, key: string, max: int, windowMs: int, now: int)
    requires max != 0 && Live(store, key, now)
    ensures var (d, s) := Step(store, key, max, windowMs, now);
            && s[key] == Entry(store[key].count + 1, store[key].resetTime)
            && (d.Rejected? <==> store[key].count + 1 > max)
            && (d.Rejected? ==> d.retryAfter == RetryAfter(store[key].resetTime, now))
  {
  }

  /**
   * For a window opened at or before `now` and not yet ended, the advertised wait lies
   * between 0 and the window length in seconds, rounded up.
   */
  lemma RetryAfterBounds(openedAt: int, windowMs: int, now: int)
    requires windowMs >= 0 && openedAt <= now <= openedAt + windowMs
    ensures 0 <= RetryAfter(openedAt + windowMs, now) <= CeilDiv(windowMs, 1000)
  {
    CeilDivNonNegative(openedAt + windowMs - now, 1000);
    CeilDivMonotone(openedAt + windowMs - now, windowMs, 1000);
  }

  /** Successive checks of one key at the given times. */
  function Replay(store: Store, key: string, max: int, windowMs: int, times: seq<int>): (r: (seq<Decision>, Store))
    ensures |r.0| == |times|
    decreases |times|
  {
    if times == [] then ([], store)
    else
      var (d, s) := Step(store, key, max, windowMs, times[0]);
      var (ds, s') := Replay(s, key, max, windowMs, times[1..]);
      ([d] + ds, s')
  }

  /** Inside a live window, the i-th further request brings the count to `count + i + 1`. */
  lemma {:induction false} ReplayInsideWindow(store: Store, key: string, max: int, windowMs: int, times: seq<int>)
    requires max != 0 && key in store
    requires forall i :: 0 <= i < |times| ==> times[i] <= store[key].resetTime
    ensures forall i :: 0 <= i < |times| ==>
              && !Replay(store, key, max, windowMs, times).0[i].Disabled?
              && Replay(store, key, max, windowMs, times).0[i].entry == Entry(store[key].count + i + 1, store[key].resetTime)
              && (Replay(store, key, max, windowMs, times).0[i].Rejected? <==> store[key].count + i + 1 > max)
    decreases |times|
  {
    if times != [] {
      var (d, s) := Step(store, key, max, windowMs, times[0]);
      assert Live(store, key, times[0]);
      assert s[key] == Entry(store[key].count + 1, store[key].resetTime);
      ReplayInsideWindow(s, key, max, windowMs, times[1..]);
      var ds := Replay(store, key, max, windowMs, times).0;
      var ds' := Replay(s, key, max, windowMs, times[1..]).0;
      assert ds == [d] + ds';
      forall i | 0 <= i < |times|
        ensures && !ds[i].Disabled?
                && ds[i].entry == Entry(store[key].count + i + 1, store[key].resetTime)
                && (ds[i].Rejected? <==> store[key].count + i + 1 > max)
      {
        if i > 0 {
          assert ds[i] == ds'[i - 1];
          assert ds'[i - 1].entry == Entry(s[key].count + (i - 1) + 1, s[key].resetTime);
        }
      }
    }
  }

  /**
   * With maximum `max >= 1`, a client without a live window that sends `max + 1` requests
   * inside one window has the first `max` let through and the last one refused, with a wait
   * of at most the window length in seconds.
   */
  lemma OneTooManyRejected(store: Store, key: string, max: int, windowMs: int, times: seq<int>)
    requires max >= 1 && windowMs >= 0 && |times| == max + 1
    requires !Live(store, key, times[0])
    requires forall i :: 0 <= i < |times| ==> times[0] <= times[i] <= times[0] + windowMs
    ensures forall i :: 0 <= i < max ==> Replay(store, key, max, windowMs, times).0[i].Allowed?
    ensures Replay(store, key, max, windowMs, times).0[max].Rejected?
    ensures 0 <= Replay(store, key, max, windowMs, times).0[max].retryAfter <= CeilDiv(windowMs, 1000)
  {
    var (d, s) := Step(store, key, max, windowMs, times[0]);
    assert d == Allowed(Entry(1, times[0] + windowMs));
    assert s[key] == Entry(1, times[0] + windowMs);
    ReplayInsideWindow(s, key, max, windowMs, times[1..]);
    var ds := Replay(store, key, max, windowMs, times).0;
    var ds' := Replay(s, key, max, windowMs, times[1..]).0;
    assert ds == [d] + ds';
    forall i | 0 <= i < max
      ensures ds[i].Allowed?
    {
      if i > 0 {
        assert ds[i] == ds'[i - 1];
      }
    }
    assert ds[max] == ds'[max - 1];
    assert ds[max].entry == Entry(max + 1, times[0] + windowMs);
    ReplayLast(store, key, max, windowMs, times);
    var before := Replay(store, key, max, windowMs, times[..max]).1;
    ReplayInsideWindow(s, key, max, windowMs, times[1..]);
    assert ds[max] == Step(before, key, max, windowMs, times[max]).0;
    assert Live(before, key, times[max]);
    LiveWindowCounts(before, key, max, windowMs, times[max]);
    RetryAfterBounds(times[0], windowMs, times[max]);
  }

  /** The last decision of a replay is the step taken from the state the earlier requests left. */
  lemma {:induction false} ReplayLast(store: Store, key: string, max: int, windowMs: int, times: seq<int>)
    requires |times| >= 1
    ensures var ds := Replay(store, key, max, windowMs, times).0;
            ds[|times| - 1] == Step(Replay(store, key, max, windowMs, times[..|times| - 1]).1, key, max, windowMs, times[|times| - 1]).0
    decreases |times|
  {
    if |times| > 1 {
      var s := Step(store, key, max, windowMs, times[0]).1;
      ReplayLast(s, key, max, windowMs, times[1..]);
      assert times[1..][..|times| - 2] == times[..|times| - 1][1..];
    }
  }

  /**
   * The sweep cannot be observed: checking at any time `t` not before the sweep gives the
   * same decision whether or not the sweep ran, and the store only differs by the sweep.
   */
  lemma SweepIsTransparent(store: Store, key: string, max: int, windowMs: int, now: int, t: int)
    requires windowMs >= 0 && now <= t
    ensures Step(Swept(store, now), key, max, windowMs, t).0 == Step(store, key, max, windowMs, t).0
    ensures Step(Swept(store, now), key, max, windowMs, t).1 == Swept(Step(store, key, max, windowMs, t).1, now)
  {
    var swept := Swept(store, now);
    assert Live(swept, key, t) <==> Live(store, key, t);
    var a := Step(swept, key, max, windowMs, t).1;
    var b := Swept(Step(store, key, max, windowMs, t).1, now);
    if max != 0 {
      assert a.Keys == b.Keys;
    }
  }

  /** `X-RateLimit-Limit`, `X-RateLimit-Remaining` (never negative) and `X-RateLimit-Reset` (epoch seconds, rounded up). */
  function RateLimitHeaders(max: int, remaining: int, reset: int): (h: map<string, string>)
    ensures h.Keys == {"X-RateLimit-Limit", "X-RateLimit-Remaining", "X-RateLimit-Reset"}
  {
    map["X-RateLimit-Limit" := IntToString(max),
        "X-RateLimit-Remaining" := IntToString(Max(0, remaining)),
        "X-RateLimit-Reset" := IntToString(CeilDiv(reset, 1000))]
  }

  /** A client reading the headers back gets the limit, the remaining count clamped at 0, and the reset in seconds. */
  lemma RateLimitHeadersParseBack(max: int, remaining: int, reset: int)
    ensures var h := RateLimitHeaders(max, remaining, reset);
            && ParseInt(h["X-RateLimit-Limit"]) == Some(max)
            && ParseInt(h["X-RateLimit-Remaining"]) == Some(Max(0, remaining))
            && ParseInt(h["X-RateLimit-Reset"]) == Some(CeilDiv(reset, 1000))
  {
    ParseIntOfIntToString(max);
    ParseIntOfIntToString(Max(0, remaining));
    ParseIntOfIntToString(CeilDiv(reset, 1000));
  }

  /** Every stored window has counted at least one request. */
  predicate CountsPositive(store: Store) {
    forall k :: k in store ==> store[k].count >= 1
  }

  /** Checks keep every stored count at one or more. */
  lemma StepKeepsCountsPositive(store: Store, key: string, max: int, windowMs: int, now: int)
    requires CountsPositive(store)
    ensures CountsPositive(Step(store, key, max, windowMs, now).1)
  {
  }

  /** An allowed request never leaves more than `max - 1` requests in the window, and none below 0. */
  lemma AllowedRemainingBounds(store: Store, key: string, max: int, windowMs: int, now: int)
    requires max > 0 && CountsPositive(store) && Step(store, key, max, windowMs, now).0.Allowed?
    ensures var e := Step(store, key, max, windowMs, now).0.entry;
            0 <= max - e.count <= max - 1
  {
    if Live(store, key, now) {
      LiveWindowCounts(store, key, max, windowMs, now);
    }
  }

  /** The module-level `rateLimitStore` and the operations on it. */
  class RateLimiter {
    var store: Store

    ghost predicate Valid()
      reads this
    {
      CountsPositive(store)
    }

    constructor()
      ensures Valid() && store == map[]
    {
      store := map[];
    }

    /**
     * `onBeforeHandle`: with limiting off nothing is read or written; otherwise the client's
     * entry is opened or counted, a refused request throws, and an allowed one records the
     * remaining count and the window's end for the response headers.
     */
    method OnBeforeHandle(ctx: RequestContext, clientIp: string, max: int, windowMs: int, now: int)
      returns (thrown: Option<Thrown>)
      requires Valid()
      modifies this, ctx`rateLimitRemaining, ctx`rateLimitReset
      ensures Valid()
      ensures var (d, s) := Step(old(store), clientIp, max, windowMs, now);
              && store == s
              && (d.Rejected? <==> thrown.Some?)
              && (d.Rejected? ==> thrown == Some(RejectionError(d.retryAfter)))
              && (d.Allowed? ==> ctx.rateLimitRemaining == Some(max - d.entry.count)
                                 && ctx.rateLimitReset == Some(d.entry.resetTime))
              && (!d.Allowed? ==> ctx.rateLimitRemaining == old(ctx.rateLimitRemaining)
                                  && ctx.rateLimitReset == old(ctx.rateLimitReset))
    {
      if max == 0 {
        return None;
      }
      var key := clientIp;
      var entry: Entry;
      if key !in store || store[key].resetTime < now {
        entry := Entry(1, now + windowMs);
        store := store[key := entry];
      } else {
        entry := store[key];
        entry := entry.(count := entry.count + 1);
        store := store[key := entry];
        if entry.count > max {
          var retryAfter := CeilDiv(entry.resetTime - now, 1000);
          return Some(RejectionError(retryAfter));
        }
      }
      ctx.rateLimitRemaining := Some(max - entry.count);
      ctx.rateLimitReset := Some(entry.resetTime);
      thrown := None;
    }

    /** The `setInterval` body: deletes every entry whose window ended before `now`. */
    method Sweep(now: int)
      requires Valid()
      modifies this
      ensures Valid()
      ensures store == Swept(old(store), now)
    {
      var keys := store.Keys;
      while keys != {}
        invariant keys <= store.Keys <= old(store).Keys
        invariant forall k :: k in store <==> k in old(store) && (k in keys || old(store)[k].resetTime >= now)
        invariant forall k :: k in store ==> store[k] == old(store)[k]
        decreases keys
      {
        var k :| k in keys;
        if store[k].resetTime < now {
          store := store - {k};
        }
        keys := keys - {k};
      }
    }
  }

  /**
   * `onAfterHandle`: with limiting on, writes the three rate-limit headers from what the
   * check recorded; every other header stays.
   */
  method OnAfterHandle(ctx: RequestContext, max: int)
    requires max != 0 ==> ctx.rateLimitRemaining.Some? && ctx.rateLimitReset.Some?
    modifies ctx`headers
    ensures max == 0 ==> ctx.headers == old(ctx.headers)
    ensures max != 0 ==>
              ctx.headers == old(ctx.headers) + RateLimitHeaders(max, ctx.rateLimitRemaining.value, ctx.rateLimitReset.value)
  {
    if max == 0 {
      return;
    }
    var remaining := ctx.rateLimitRemaining.value;
    var reset := ctx.rateLimitReset.value;
    ctx.headers := ctx.headers["X-RateLimit-Limit" := IntToString(max)];
    ctx.headers := ctx.headers["X-RateLimit-Remaining" := IntToString(Max(0, remaining))];
    ctx.headers := ctx.headers["X-RateLimit-Reset" := IntToString(CeilDiv(reset, 1000))];
  }
}

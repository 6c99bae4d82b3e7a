/**
 * The HTTP gate in front of a route (middleware/rate-limit.ts): 50 requests
 * per hour per client address, a 429 when the window is used up, and the
 * limiter's figures copied into the headers of an admitted response.
 */
module RateLimitMiddleware {
  import opened Common
  import opened Json
  import opened Strings
  import opened KvStore
  import opened RateLimiter
  import opened Http

  const IP_LIMIT := 50
  const IP_WINDOW := 60 * 60

  const LIMIT_HEADER := "X-RateLimit-Limit"
  const REMAINING_HEADER := "X-RateLimit-Remaining"
  const RESET_HEADER := "X-RateLimit-Reset"
  const RETRY_AFTER_HEADER := "Retry-After"

  /** `req.headers.get("x-forwarded-for") || "unknown"`: an empty header is falsy too. */
  function ClientIp(forwardedFor: Option<string>): (ip: string)
    ensures ip != ""
    ensures forwardedFor.Some? && forwardedFor.value != "" ==> ip == forwardedFor.value
    ensures forwardedFor.None? || forwardedFor.value == "" ==> ip == "unknown"
  {
    if forwardedFor.Some? && forwardedFor.value != "" then forwardedFor.value else "unknown"
  }

  /** The limiter call the gate makes for one request. */
  method Admit(store: Store, forwardedFor: Option<string>) returns (r: RateLimitResult)
    modifies store`ops, store`values
    ensures var key := LimiterKey(IP, ClientIp(forwardedFor));
      && store.values - {key} == old(store.values) - {key}
      && (old(store.Healthy(4)) ==>
            var d := Decide(Visible(old(store.values), store.now, key), store.now, IP_LIMIT, IP_WINDOW);
            r == d.0 && Visible(store.values, store.now, key) == d.1)
      && (old(store.Fails(0)) ==> r == FAIL_OPEN && store.values == old(store.values))
    ensures old(store.ops) < store.ops <= old(store.ops) + 4
    ensures (exists j :: old(store.ops) <= j < store.ops && j in store.faulty) ==> r == FAIL_OPEN
    ensures var key := LimiterKey(IP, ClientIp(forwardedFor));
      var d := Decide(Visible(old(store.values), store.now, key), store.now, IP_LIMIT, IP_WINDOW);
      (forall j :: old(store.ops) <= j < store.ops ==> j !in store.faulty) ==>
        r == d.0 && Visible(store.values, store.now, key) == d.1
  {
    r := CheckRateLimit(store, IP_LIMIT, IP_WINDOW, IP, ClientIp(forwardedFor));
  }

  /** The refusal sent instead of running the handler. */
  function TooManyRequests(res: RateLimitResult): (resp: Response)
    ensures resp.status == 429
    ensures resp.headers.Keys == {LIMIT_HEADER, REMAINING_HEADER, RESET_HEADER, RETRY_AFTER_HEADER}
    ensures resp.headers[LIMIT_HEADER] == "50" && resp.headers[REMAINING_HEADER] == "0"
    ensures resp.headers[RESET_HEADER] == resp.headers[RETRY_AFTER_HEADER]
    ensures FromRadix(resp.headers[RETRY_AFTER_HEADER], 10) == Some(res.reset)
  {
    RadixRoundTrip(res.reset, 10);
    Response(429,
      JObj(map["error" := JStr("Too many requests"), "message" := JStr("Rate limit exceeded. Please try again later.")]),
      map[LIMIT_HEADER := "50", REMAINING_HEADER := "0",
          RESET_HEADER := Decimal(res.reset), RETRY_AFTER_HEADER := Decimal(res.reset)])
  }

  /** The three `response.headers.set` calls on the handler's response. */
  function WithRateHeaders(resp: Response, res: RateLimitResult): (out: Response)
    ensures out.status == resp.status && out.body == resp.body
    ensures out.headers.Keys == resp.headers.Keys + {LIMIT_HEADER, REMAINING_HEADER, RESET_HEADER}
    ensures forall h :: h in resp.headers && h !in {LIMIT_HEADER, REMAINING_HEADER, RESET_HEADER} ==>
      out.headers[h] == resp.headers[h]
    ensures out.headers[LIMIT_HEADER] == "50"
    ensures FromRadix(out.headers[REMAINING_HEADER], 10) == Some(res.remaining)
    ensures FromRadix(out.headers[RESET_HEADER], 10) == Some(res.reset)
  {
    RadixRoundTrip(res.remaining, 10);
    RadixRoundTrip(res.reset, 10);
    resp.(headers := resp.headers[LIMIT_HEADER := "50"][REMAINING_HEADER := Decimal(res.remaining)][RESET_HEADER := Decimal(res.reset)])
  }

  /**
   * `rateLimitMiddleware(req, handler)`: `handled` is the response the handler
   * gives when it runs. The verdict `r` is the limiter's decision on the
   * client's counter, 50 per hour, unless a store call fails, which lets the
   * request through. A refused request never reaches the handler.
   */
  method Gate(store: Store, forwardedFor: Option<string>, handled: Response)
    returns (resp: Response, ran: bool, r: RateLimitResult)
    modifies store`ops, store`values
    ensures ran <==> r.success
    ensures ran ==> resp == WithRateHeaders(handled, r)
    ensures !ran ==> resp == TooManyRequests(r) && resp.status == 429
    ensures old(store.Fails(0)) ==> ran && r == FAIL_OPEN
    ensures var key := LimiterKey(IP, ClientIp(forwardedFor));
      store.values - {key} == old(store.values) - {key}
    ensures var key := LimiterKey(IP, ClientIp(forwardedFor));
      var d := Decide(Visible(old(store.values), store.now, key), store.now, IP_LIMIT, IP_WINDOW);
      old(store.Healthy(4)) ==> r == d.0 && Visible(store.values, store.now, key) == d.1
    ensures old(store.ops) < store.ops <= old(store.ops) + 4
    // Any failing store call lets the request through; with none, the verdict is the limiter's.
    ensures (exists j :: old(store.ops) <= j < store.ops && j in store.faulty) ==> ran && r == FAIL_OPEN
    ensures var key := LimiterKey(IP, ClientIp(forwardedFor));
      var d := Decide(Visible(old(store.values), store.now, key), store.now, IP_LIMIT, IP_WINDOW);
      (forall j :: old(store.ops) <= j < store.ops ==> j !in store.faulty) ==>
        r == d.0 && Visible(store.values, store.now, key) == d.1
  {
    r := Admit(store, forwardedFor);
    if !r.success {
      return TooManyRequests(r), false, r;
    }
    resp := WithRateHeaders(handled, r);
    ran := true;
  }

  /** Every client address without a header shares one counter. */
  lemma UnknownClientsShareCounter(a: Option<string>, b: Option<string>)
    requires a.None? || a == Some("")
    requires b.None? || b == Some("")
    ensures LimiterKey(IP, ClientIp(a)) == LimiterKey(IP, ClientIp(b))
  {
  }
}

/**
 * Fixed-window rate limiting over the store (utils/rate-limiter.ts): a counter
 * per `ratelimit:<type>:<identifier>` key that expires `window` seconds after
 * the first request of a window. Whenever the store fails, the request is let
 * through.
 */
module RateLimiter {
  import opened Common
  import opened Json
  import opened KvStore

  datatype RateLimitType = IP | USER | GLOBAL

  function TypeName(t: RateLimitType): string
  {
    match t
    case IP => "ip"
    case USER => "user"
    case GLOBAL => "global"
  }

  function LimiterKey(t: RateLimitType, identifier: string): string
  {
    "ratelimit:" + TypeName(t) + ":" + identifier
  }

  /** Each type and identifier has a counter of its own. */
  lemma LimiterKeysSeparate(t1: RateLimitType, a: string, t2: RateLimitType, b: string)
    ensures LimiterKey(t1, a) == LimiterKey(t2, b) <==> t1 == t2 && a == b
  {
    if LimiterKey(t1, a) == LimiterKey(t2, b) {
      assert LimiterKey(t1, a)[10] == LimiterKey(t2, b)[10];
      var n := |"ratelimit:" + TypeName(t1) + ":"|;
      assert a == LimiterKey(t1, a)[n..];
      assert b == LimiterKey(t2, b)[n..];
    }
  }

  datatype RateLimitResult = RateLimitResult(success: bool, remaining: int, reset: int)

  /** What a failing store yields: allowed, one remaining, reset 0. */
  const FAIL_OPEN := RateLimitResult(true, 1, 0)

  /** `(await get(key)) || 0` */
  function CountOf(counter: Option<Entry>): Json
  {
    if counter.Some? && Truthy(counter.value.value) then counter.value.value else JNum(0)
  }

  /**
   * One check against the counter entry visible now, on a store that does not
   * fail: the reply, and the counter entry left behind.
   */
  function Decide(counter: Option<Entry>, now: int, limit: int, window: int): (RateLimitResult, Option<Entry>)
  {
    var count := CountOf(counter);
    var n := ToNumber(Some(count));
    if n.Some? && n.value >= limit then
      (RateLimitResult(false, 0, TtlOf(counter, now)), counter)
    else
      match IncrEntry(counter)
      case None => (FAIL_OPEN, counter)
      case Some(bumped) =>
        var after := if count == JNum(0) then ExpireEntry(bumped, now, window) else Some(bumped);
        (RateLimitResult(true, limit - (n.value + 1), TtlOf(after, now)), after)
  }

  method CheckRateLimit(store: Store, limit: int, window: int, t: RateLimitType, identifier: string)
    returns (r: RateLimitResult)
    modifies store`ops, store`values
    ensures store.values - {LimiterKey(t, identifier)} == old(store.values) - {LimiterKey(t, identifier)}
    ensures
      var key := LimiterKey(t, identifier);
      var d := Decide(Visible(old(store.values), store.now, key), store.now, limit, window);
      && (old(store.Healthy(4)) ==> r == d.0 && Visible(store.values, store.now, key) == d.1)
      && (old(store.Fails(0)) ==> r == FAIL_OPEN && store.values == old(store.values))
      && (r == d.0 || r == FAIL_OPEN)
      && (!r.success ==> r == d.0)
    ensures old(store.ops) < store.ops <= old(store.ops) + 4
    // Any failing store call, wherever it comes, lets the request through; with none, the reply is Decide's.
    ensures (exists j :: old(store.ops) <= j < store.ops && j in store.faulty) ==> r == FAIL_OPEN
    ensures
      var key := LimiterKey(t, identifier);
      var d := Decide(Visible(old(store.values), store.now, key), store.now, limit, window);
      (forall j :: old(store.ops) <= j < store.ops ==> j !in store.faulty) ==>
        r == d.0 && Visible(store.values, store.now, key) == d.1
    // The first request of a window whose EXPIRE fails leaves a counter that never expires.
    ensures
      var key := LimiterKey(t, identifier);
      old(Visible(store.values, store.now, key)).None? && limit > 0 &&
      !old(store.Fails(0)) && !old(store.Fails(1)) && old(store.Fails(2)) ==>
        r == FAIL_OPEN && Visible(store.values, store.now, key) == Some(Entry(JNum(1), None))
  {
    var key := LimiterKey(t, identifier);
    ghost var counter := Visible(store.values, store.now, key);
    var got := store.Get(key);
    if got.Err? {
      return FAIL_OPEN;
    }
    var count := if got.value.Some? && Truthy(got.value.value) then got.value.value else JNum(0);
    var n := ToNumber(Some(count));
    if n.Some? && n.value >= limit {
      var ttl := store.Ttl(key);
      if ttl.Err? {
        return FAIL_OPEN;
      }
      return RateLimitResult(false, 0, ttl.value);
    }
    var incr := store.Incr(key);
    if incr.Err? {
      return FAIL_OPEN;
    }
    if count == JNum(0) {
      var ex := store.Expire(key, window);
      if ex.Err? {
        return FAIL_OPEN;
      }
    }
    var ttl := store.Ttl(key);
    if ttl.Err? {
      return FAIL_OPEN;
    }
    r := RateLimitResult(true, limit - (n.value + 1), ttl.value);
  }

  /** A counter that holds at most `limit` requests. */
  predicate WithinLimit(counter: Option<Entry>, limit: int)
  {
    counter.None? || (counter.value.value.JNum? && 0 <= counter.value.value.n <= limit)
  }

  /** The stored count never grows past the limit. */
  lemma CountNeverExceedsLimit(counter: Option<Entry>, now: int, limit: int, window: int)
    requires WithinLimit(counter, limit)
    ensures WithinLimit(Decide(counter, now, limit, window).1, limit)
  {
  }

  /** A request is admitted exactly when the stored count is below the limit. */
  lemma AdmittedIffBelowLimit(counter: Option<Entry>, now: int, limit: int, window: int)
    requires WithinLimit(counter, limit)
    ensures Decide(counter, now, limit, window).0.success <==> CountOf(counter).n < limit
  {
  }

  /** `k` checks in a row at one instant: their replies and the counter left at the end. */
  function Run(counter: Option<Entry>, now: int, limit: int, window: int, k: nat): (seq<RateLimitResult>, Option<Entry>)
    decreases k
  {
    if k == 0 then ([], counter)
    else
      var d := Decide(counter, now, limit, window);
      var rest := Run(d.1, now, limit, window, k - 1);
      ([d.0] + rest.0, rest.1)
  }

  /** The reply to the request that finds `c` requests already counted in the window. */
  function Expected(c: int, limit: int, window: int): RateLimitResult
  {
    if c < limit then RateLimitResult(true, limit - (c + 1), window) else RateLimitResult(false, 0, window)
  }

  lemma {:induction false} RunFrom(c: int, now: int, limit: int, window: int, k: nat)
    requires 1 <= c <= limit && window > 0
    ensures
      var run := Run(Some(Entry(JNum(c), Some(now + window))), now, limit, window, k);
      && |run.0| == k
      && (forall i :: 0 <= i < k ==> run.0[i] == Expected(c + i, limit, window))
      && run.1 == Some(Entry(JNum(Min(c + k, limit)), Some(now + window)))
    decreases k
  {
    if k > 0 {
      var e := Some(Entry(JNum(c), Some(now + window)));
      var d := Decide(e, now, limit, window);
      var c' := if c < limit then c + 1 else c;
      assert d.0 == Expected(c, limit, window);
      assert d.1 == Some(Entry(JNum(c'), Some(now + window)));
      var run := Run(e, now, limit, window, k);
      if c < limit {
        RunFrom(c + 1, now, limit, window, k - 1);
        assert forall i :: 1 <= i < k ==> run.0[i] == Expected(c + 1 + (i - 1), limit, window);
      } else {
        RunFrom(c, now, limit, window, k - 1);
        forall i | 1 <= i < k ensures run.0[i] == Expected(c + i, limit, window) {
          assert run.0[i] == Expected(c + (i - 1), limit, window);
        }
      }
    }
  }

  /**
   * Within one window, starting from no counter, the i-th request (from 0)
   * is admitted with `limit - (i + 1)` remaining while `i < limit`, and every
   * later one is refused; all of them report the full window as the reset.
   */
  lemma SequentialRequests(now: int, limit: int, window: int, k: nat)
    requires limit >= 1 && window > 0 && k >= 1
    ensures
      var run := Run(None, now, limit, window, k);
      && |run.0| == k
      && (forall i :: 0 <= i < k ==> run.0[i] == Expected(i, limit, window))
      && run.1 == Some(Entry(JNum(Min(k, limit)), Some(now + window)))
  {
    var d := Decide(None, now, limit, window);
    assert d.1 == Some(Entry(JNum(1), Some(now + window)));
    RunFrom(1, now, limit, window, k - 1);
    var run := Run(None, now, limit, window, k);
    assert forall i :: 1 <= i < k ==> run.0[i] == Expected(1 + (i - 1), limit, window);
  }

  /** With a limit of 3: two, one and zero remaining, then refused. */
  lemma LimitOfThree(now: int, window: int)
    requires window > 0
    ensures Run(None, now, 3, window, 4).0 ==
      [RateLimitResult(true, 2, window), RateLimitResult(true, 1, window),
       RateLimitResult(true, 0, window), RateLimitResult(false, 0, window)]
  {
    SequentialRequests(now, 3, window, 4);
  }

  /** Once the window has passed, the counter is gone and the next request starts a new window. */
  lemma WindowRestarts(values: map<string, Entry>, key: string, c: int, start: int, later: int, limit: int, window: int)
    requires key in values && values[key] == Entry(JNum(c), Some(start + window))
    requires later >= start + window && limit >= 1 && window > 0
    ensures Decide(Visible(values, later, key), later, limit, window) ==
      (RateLimitResult(true, limit - 1, window), Some(Entry(JNum(1), Some(later + window))))
  {
  }
}

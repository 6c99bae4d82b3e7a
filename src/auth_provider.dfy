/**
 * The session helpers of components/auth-provider.tsx: `withRetry`, which
 * retries an auth call on rate limiting with a doubling wait, and
 * `updateProfile`, which merges saved fields into the signed-in user.
 */
module AuthProvider {
  import opened Common
  import opened Json
  import opened Strings

  const MAX_RETRIES := 3
  const RETRY_DELAY := 1000

  /** What a call can throw: an `AuthError` from the auth client, or anything else. */
  datatype Thrown = AuthError(message: string) | OtherError(message: string)

  datatype Attempt<T> = Returned(value: T) | Threw(error: Thrown)

  /** An error `withRetry` answers with another attempt (while retries are left). */
  predicate RateLimited(e: Thrown)
  {
    && e.AuthError?
    && !Contains(e.message, "refresh_token_already_used")
    && Contains(e.message, "over_request_rate_limit")
  }

  function Pow2(i: nat): (p: nat)
    ensures p >= 1
  {
    if i == 0 then 1 else 2 * Pow2(i - 1)
  }

  /** The first `n` waits of a backoff starting at `delay` and doubling each time. */
  function Backoff(delay: int, n: nat): (waits: seq<int>)
    ensures |waits| == n
    decreases n
  {
    if n == 0 then [] else [delay] + Backoff(delay * 2, n - 1)
  }

  /** The `i`-th wait is `delay * 2^i`. */
  lemma {:induction false} BackoffDoubles(delay: int, n: nat, i: nat)
    requires i < n
    ensures Backoff(delay, n)[i] == delay * Pow2(i)
    decreases i
  {
    if i > 0 {
      BackoffDoubles(delay * 2, n - 1, i - 1);
      assert (delay * 2) * Pow2(i - 1) == delay * (2 * Pow2(i - 1));
    }
  }

  /** A shorter backoff is the start of a longer one. */
  lemma {:induction false} BackoffPrefix(delay: int, m: nat, n: nat)
    requires m <= n
    ensures Backoff(delay, m) == Backoff(delay, n)[..m]
    decreases m
  {
    if m > 0 {
      BackoffPrefix(delay * 2, m - 1, n - 1);
    }
  }

  /** The outcome of the last call, and the waits between calls. */
  datatype Retried<T> = Retried(outcome: Attempt<T>, waits: seq<int>)

  /**
   * `withRetry(fn, retries, delay)`, where `fn(k)` is the outcome of the
   * `k`-th call (`first` is the number of calls made before this one).
   * A value is returned at once; an error is rethrown at once unless it is a
   * rate-limit error and retries are left, in which case the helper waits
   * `delay` and starts over with one retry fewer and twice the delay.
   */
  function WithRetry<T>(fn: nat -> Attempt<T>, retries: int, delay: int, first: nat): (r: Retried<T>)
    ensures |r.waits| <= if retries > 0 then retries else 0
    ensures r.waits == Backoff(delay, |r.waits|)
    ensures r.outcome == fn(first + |r.waits|)
    ensures forall k :: first <= k < first + |r.waits| ==> fn(k).Threw? && RateLimited(fn(k).error)
    ensures r.outcome.Threw? && RateLimited(r.outcome.error) ==> |r.waits| == if retries > 0 then retries else 0
    decreases if retries > 0 then retries else 0
  {
    match fn(first)
    case Returned(v) => Retried(Returned(v), [])
    case Threw(e) =>
      if RateLimited(e) && retries > 0 then
        var rest := WithRetry(fn, retries - 1, delay * 2, first + 1);
        Retried(rest.outcome, [delay] + rest.waits)
      else Retried(Threw(e), [])
  }

  /** With the defaults, `fn` runs at most four times, waiting 1000, 2000 and 4000 ms in between. */
  lemma DefaultBackoff<T>(fn: nat -> Attempt<T>)
    ensures
      var r := WithRetry(fn, MAX_RETRIES, RETRY_DELAY, 0);
      && |r.waits| + 1 <= 4
      && r.waits == [1000, 2000, 4000][..|r.waits|]
  {
    var r := WithRetry(fn, MAX_RETRIES, RETRY_DELAY, 0);
    BackoffPrefix(RETRY_DELAY, |r.waits|, 3);
    assert Backoff(RETRY_DELAY, 3) == [1000, 2000, 4000];
  }

  /** A value on the first call is returned as is, with no wait. */
  lemma FirstSuccessReturned<T>(fn: nat -> Attempt<T>, retries: int, delay: int)
    requires fn(0).Returned?
    ensures WithRetry(fn, retries, delay, 0) == Retried(fn(0), [])
  {
  }

  /** A used refresh token is rethrown on the spot, however many retries are left. */
  lemma UsedTokenNotRetried<T>(fn: nat -> Attempt<T>, retries: int, delay: int, message: string)
    requires fn(0) == Threw(AuthError(message)) && Contains(message, "refresh_token_already_used")
    ensures WithRetry(fn, retries, delay, 0) == Retried(Threw(AuthError(message)), [])
  {
  }

  /** The profile fields held for the signed-in user, `id` and `email` among them. */
  type User = map<string, Json>

  const NO_USER := "No user logged in"

  /** The user state the provider holds. */
  class AuthState {
    var user: Option<User>

    constructor(user: Option<User>)
      ensures this.user == user
    {
      this.user := user;
    }

    /**
     * `updateProfile(data)`: `updatedId` is the id the profile update was
     * sent for, `updateError` the error the database answers with. On
     * success the user becomes `{...user, ...data}`; otherwise the error is
     * thrown and the user stays as it was.
     */
    method UpdateProfile(data: map<string, Json>, updateError: Option<string>)
      returns (thrown: Option<string>, updatedId: Option<Json>)
      modifies this`user
      ensures old(user).None? ==> thrown == Some(NO_USER) && updatedId.None? && user == old(user)
      ensures old(user).Some? ==> updatedId == Some(if "id" in old(user).value then old(user).value["id"] else JNull)
      ensures old(user).Some? && updateError.Some? ==> thrown == updateError && user == old(user)
      ensures old(user).Some? && updateError.None? ==> thrown.None? && user == Some(old(user).value + data)
      ensures thrown.None? <==> old(user).Some? && updateError.None?
    {
      if user.None? {
        return Some(NO_USER), None;
      }
      updatedId := Some(if "id" in user.value then user.value["id"] else JNull);
      if updateError.Some? {
        return updateError, updatedId;
      }
      user := Some(user.value + data);
      thrown := None;
    }
  }

  /** After a successful update, saved fields take the new values and every other field is kept. */
  lemma MergeKeepsOtherFields(user: User, data: map<string, Json>, k: string)
    requires k in user || k in data
    ensures k in data ==> (user + data)[k] == data[k]
    ensures k !in data ==> (user + data)[k] == user[k]
    ensures (user + data).Keys == user.Keys + data.Keys
  {
  }
}

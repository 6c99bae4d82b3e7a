/** Sessions kept in the store under `session:<id>` (utils/session-store.ts). */
module SessionStore {
  import opened Common
  import opened Json
  import opened KvStore
  import opened RedisClient

  function SessionKey(sessionId: string): string { "session:" + sessionId }

  /** Different sessions never share a key. */
  lemma SessionKeysSeparate(a: string, b: string)
    ensures SessionKey(a) == SessionKey(b) <==> a == b
  {
    if SessionKey(a) == SessionKey(b) {
      assert a == SessionKey(a)[8..];
      assert b == SessionKey(b)[8..];
    }
  }

  /** `setSession`: the data, expiring after `ttl` seconds (an hour unless told otherwise). */
  method SetSession(store: Store, sessionId: string, data: Json, ttl: int := CACHE_TTL_MEDIUM) returns (r: Result<()>)
    modifies store`ops, store`values
    ensures r.Ok? <==> !old(store.Fails(0)) && ttl > 0
    ensures r.Ok? ==> store.values == old(store.values)[SessionKey(sessionId) := Entry(data, Some(store.now + ttl))]
    ensures r.Ok? ==> store.Lookup(SessionKey(sessionId)) == Some(data) && TtlOf(Visible(store.values, store.now, SessionKey(sessionId)), store.now) == ttl
    ensures r.Err? ==> store.values == old(store.values)
  {
    r := store.Set(SessionKey(sessionId), data, Some(ttl));
  }

  /** `getSession`: the stored data, or nothing once deleted or expired. */
  method GetSession(store: Store, sessionId: string) returns (r: Result<Option<Json>>)
    modifies store`ops
    ensures r == if old(store.Fails(0)) then Err(UNAVAILABLE) else Ok(store.Lookup(SessionKey(sessionId)))
  {
    r := store.Get(SessionKey(sessionId));
  }

  /** `deleteSession` */
  method DeleteSession(store: Store, sessionId: string) returns (r: Result<()>)
    modifies store`ops, store`values
    ensures r.Ok? <==> !old(store.Fails(0))
    ensures r.Ok? ==> store.values == old(store.values) - {SessionKey(sessionId)} && store.Lookup(SessionKey(sessionId)) == None
    ensures r.Err? ==> store.values == old(store.values)
  {
    var d := store.Del(SessionKey(sessionId));
    if d.Err? {
      return Err(d.error);
    }
    r := Ok(());
  }

  /** `extendSession`: a live session keeps its data and expires `ttl` seconds from now. */
  method ExtendSession(store: Store, sessionId: string, ttl: int := CACHE_TTL_MEDIUM) returns (r: Result<()>)
    modifies store`ops, store`values
    ensures r.Ok? <==> !old(store.Fails(0))
    ensures store.values - {SessionKey(sessionId)} == old(store.values) - {SessionKey(sessionId)}
    ensures r.Ok? && old(store.Lookup(SessionKey(sessionId))).Some? && ttl > 0 ==>
      store.Lookup(SessionKey(sessionId)) == old(store.Lookup(SessionKey(sessionId))) &&
      TtlOf(Visible(store.values, store.now, SessionKey(sessionId)), store.now) == ttl
    // A timeout that is not positive ends the session at once.
    ensures r.Ok? && ttl <= 0 ==> store.Lookup(SessionKey(sessionId)) == None
    ensures old(store.Lookup(SessionKey(sessionId))).None? ==> store.values == old(store.values)
  {
    var e := store.Expire(SessionKey(sessionId), ttl);
    if e.Err? {
      return Err(e.error);
    }
    r := Ok(());
  }

  /** A stored session is read back until its timeout runs out, and not after. */
  lemma ReadBackUntilExpiry(values: map<string, Entry>, sessionId: string, data: Json, setAt: int, ttl: int, later: int)
    requires ttl > 0 && setAt <= later
    ensures var stored := values[SessionKey(sessionId) := Entry(data, Some(setAt + ttl))];
      Visible(stored, later, SessionKey(sessionId)) ==
        if later < setAt + ttl then Some(Entry(data, Some(setAt + ttl))) else None
  {
  }
}

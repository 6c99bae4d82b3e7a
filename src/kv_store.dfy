/**
 * The Redis store behind the job queue, the rate limiter, sessions and the AI
 * response cache: string keys holding JSON values with optional expiry, list
 * keys, and the store's clock in seconds.
 *
 * Any call may fail (an unreachable or unconfigured store). Failures are
 * scheduled up front: the store counts the calls made on it, and call number
 * `k` fails exactly when `k` is in `faulty`.
 */
module KvStore {
  import opened Common
  import opened Json

  /** A stored value and the instant (in store seconds) at which it disappears, if any. */
  datatype Entry = Entry(value: Json, expiresAt: Option<int>)

  const UNAVAILABLE := "Store unavailable"
  const NOT_AN_INTEGER := "ERR value is not an integer or out of range"
  const INVALID_EXPIRE := "ERR invalid expire time in 'set' command"

  /** An entry is visible until its expiry instant. */
  predicate LiveAt(e: Entry, now: int) { e.expiresAt.None? || now < e.expiresAt.value }

  /** The entry a reader sees for `key` at time `now`. */
  function Visible(values: map<string, Entry>, now: int, key: string): Option<Entry>
  {
    if key in values && LiveAt(values[key], now) then Some(values[key]) else None
  }

  /** The reply of TTL: -2 when there is no key, -1 when it never expires, else the seconds left. */
  function TtlOf(e: Option<Entry>, now: int): (t: int)
    ensures e.None? ==> t == -2
    ensures e.Some? && LiveAt(e.value, now) ==> t >= -1 && t != 0
  {
    match e
    case None => -2
    case Some(Entry(_, None)) => -1
    case Some(Entry(_, Some(at))) => at - now
  }

  /** INCR on the visible entry: a missing key counts from 0 and gets no expiry;
   *  an integer keeps its expiry; anything else is refused (`None`). */
  function IncrEntry(e: Option<Entry>): (r: Option<Entry>)
    ensures r.Some? <==> e.None? || e.value.value.JNum?
    ensures r.Some? ==> r.value.value.JNum?
    ensures r.Some? && e.Some? ==> r.value == Entry(JNum(e.value.value.n + 1), e.value.expiresAt)
    ensures r.Some? && e.None? ==> r.value == Entry(JNum(1), None)
  {
    match e
    case None => Some(Entry(JNum(1), None))
    case Some(Entry(JNum(n), at)) => Some(Entry(JNum(n + 1), at))
    case Some(_) => None
  }

  /** EXPIRE on an existing entry: a positive timeout sets the expiry, any other deletes the key. */
  function ExpireEntry(e: Entry, now: int, seconds: int): (r: Option<Entry>)
    ensures seconds <= 0 <==> r.None?
    ensures r.Some? ==> r.value.value == e.value && TtlOf(r, now) == seconds
  {
    if seconds <= 0 then None else Some(Entry(e.value, Some(now + seconds)))
  }

  /** Replace, or remove, the entry under `key`. */
  function Put(values: map<string, Entry>, key: string, e: Option<Entry>): map<string, Entry>
  {
    match e
    case None => values - {key}
    case Some(x) => values[key := x]
  }

  class Store {
    var values: map<string, Entry>
    var lists: map<string, seq<Json>>
    var now: int
    var ops: nat
    const faulty: set<nat>

    constructor (start: int, faulty: set<nat>)
      ensures values == map[] && lists == map[] && now == start && ops == 0 && this.faulty == faulty
    {
      values := map[];
      lists := map[];
      now := start;
      ops := 0;
      this.faulty := faulty;
    }

    /** The value GET returns for `key` now (`None` is a nil reply). */
    function Lookup(key: string): Option<Json>
      reads this
    {
      match Visible(values, now, key)
      case None => None
      case Some(e) => Some(e.value)
    }

    /** The list held under `key`; a missing list reads as empty. */
    function List(key: string): seq<Json>
      reads this
    {
      if key in lists then lists[key] else []
    }

    /** Whether the `i`-th call from now fails. */
    predicate Fails(i: nat)
      reads this
    {
      ops + i in faulty
    }

    /** Whether the next `n` calls all succeed. */
    predicate Healthy(n: nat)
      reads this
    {
      forall j :: ops <= j < ops + n ==> j !in faulty
    }

    method Get(key: string) returns (r: Result<Option<Json>>)
      modifies this`ops
      ensures ops == old(ops) + 1
      ensures r == if old(Fails(0)) then Err(UNAVAILABLE) else Ok(Lookup(key))
    {
      if ops in faulty {
        r := Err(UNAVAILABLE);
      } else {
        r := Ok(Lookup(key));
      }
      ops := ops + 1;
    }

    /** SET, with an optional EX timeout in seconds; a plain SET drops any earlier expiry. */
    method Set(key: string, v: Json, ex: Option<int>) returns (r: Result<()>)
      modifies this`ops, this`values
      ensures ops == old(ops) + 1
      ensures old(Fails(0)) ==> r == Err(UNAVAILABLE) && values == old(values)
      ensures !old(Fails(0)) && ex.Some? && ex.value <= 0 ==> r == Err(INVALID_EXPIRE) && values == old(values)
      ensures !old(Fails(0)) && (ex.None? || ex.value > 0) ==>
        r == Ok(()) && values == old(values)[key := Entry(v, if ex.Some? then Some(now + ex.value) else None)]
    {
      if ops in faulty {
        r := Err(UNAVAILABLE);
      } else if ex.Some? && ex.value <= 0 {
        r := Err(INVALID_EXPIRE);
      } else {
        values := values[key := Entry(v, if ex.Some? then Some(now + ex.value) else None)];
        r := Ok(());
      }
      ops := ops + 1;
    }

    /** DEL: replies with the number of visible keys removed. */
    method Del(key: string) returns (r: Result<nat>)
      modifies this`ops, this`values
      ensures ops == old(ops) + 1
      ensures old(Fails(0)) ==> r == Err(UNAVAILABLE) && values == old(values)
      ensures !old(Fails(0)) ==>
        values == old(values) - {key} && r == Ok(if old(Lookup(key)).Some? then 1 else 0)
    {
      if ops in faulty {
        r := Err(UNAVAILABLE);
      } else {
        r := Ok(if Lookup(key).Some? then 1 else 0);
        values := values - {key};
      }
      ops := ops + 1;
    }

    /** INCR: replies with the new count. */
    method Incr(key: string) returns (r: Result<int>)
      modifies this`ops, this`values
      ensures ops == old(ops) + 1
      ensures old(Fails(0)) ==> r == Err(UNAVAILABLE) && values == old(values)
      ensures !old(Fails(0)) ==>
        var next := IncrEntry(Visible(old(values), now, key));
        if next.None? then r == Err(NOT_AN_INTEGER) && values == old(values)
        else r == Ok(next.value.value.n) && values == old(values)[key := next.value]
    {
      if ops in faulty {
        r := Err(UNAVAILABLE);
      } else {
        var next := IncrEntry(Visible(values, now, key));
        if next.None? {
          r := Err(NOT_AN_INTEGER);
        } else {
          values := values[key := next.value];
          r := Ok(next.value.value.n);
        }
      }
      ops := ops + 1;
    }

    /** EXPIRE: replies whether a visible key was there to expire. */
    method Expire(key: string, seconds: int) returns (r: Result<bool>)
      modifies this`ops, this`values
      ensures ops == old(ops) + 1
      ensures old(Fails(0)) ==> r == Err(UNAVAILABLE) && values == old(values)
      ensures !old(Fails(0)) ==>
        var e := Visible(old(values), now, key);
        r == Ok(e.Some?) &&
        values == if e.None? then old(values) else Put(old(values), key, ExpireEntry(e.value, now, seconds))
    {
      if ops in faulty {
        r := Err(UNAVAILABLE);
      } else {
        var e := Visible(values, now, key);
        if e.Some? {
          values := Put(values, key, ExpireEntry(e.value, now, seconds));
        }
        r := Ok(e.Some?);
      }
      ops := ops + 1;
    }

    method Ttl(key: string) returns (r: Result<int>)
      modifies this`ops
      ensures ops == old(ops) + 1
      ensures r == if old(Fails(0)) then Err(UNAVAILABLE) else Ok(TtlOf(Visible(values, now, key), now))
    {
      if ops in faulty {
        r := Err(UNAVAILABLE);
      } else {
        r := Ok(TtlOf(Visible(values, now, key), now));
      }
      ops := ops + 1;
    }

    /** LPUSH: the value goes to the head (left) of the list; replies with the new length. */
    method LPush(key: string, v: Json) returns (r: Result<nat>)
      modifies this`ops, this`lists
      ensures ops == old(ops) + 1
      ensures old(Fails(0)) ==> r == Err(UNAVAILABLE) && lists == old(lists)
      ensures !old(Fails(0)) ==>
        lists == old(lists)[key := [v] + old(List(key))] && r == Ok(|old(List(key))| + 1)
    {
      if ops in faulty {
        r := Err(UNAVAILABLE);
      } else {
        var l := List(key);
        lists := lists[key := [v] + l];
        r := Ok(|l| + 1);
      }
      ops := ops + 1;
    }

    /** RPOP: takes the value at the tail (right) of the list, if any. */
    method RPop(key: string) returns (r: Result<Option<Json>>)
      modifies this`ops, this`lists
      ensures ops == old(ops) + 1
      ensures old(Fails(0)) ==> r == Err(UNAVAILABLE) && lists == old(lists)
      ensures !old(Fails(0)) && old(List(key)) == [] ==> r == Ok(None) && lists == old(lists)
      ensures !old(Fails(0)) && old(List(key)) != [] ==>
        var l := old(List(key));
        r == Ok(Some(l[|l| - 1])) && lists == old(lists)[key := l[..|l| - 1]]
    {
      if ops in faulty {
        r := Err(UNAVAILABLE);
      } else {
        var l := List(key);
        if l == [] {
          r := Ok(None);
        } else {
          lists := lists[key := l[..|l| - 1]];
          r := Ok(Some(l[|l| - 1]));
        }
      }
      ops := ops + 1;
    }
  }
}

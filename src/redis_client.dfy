/** Cache lifetimes and cache-key construction (utils/redis-client.ts). */
module RedisClient {
  import opened Strings

  /** Lifetimes in seconds. */
  const CACHE_TTL_SHORT := 300
  const CACHE_TTL_MEDIUM := 3600
  const CACHE_TTL_LONG := 86400
  const CACHE_TTL_WEEK := 604800

  /** Each tier lasts longer than the one before. */
  lemma TiersIncrease()
    ensures 0 < CACHE_TTL_SHORT < CACHE_TTL_MEDIUM < CACHE_TTL_LONG < CACHE_TTL_WEEK
  {
  }

  /** `generateCacheKey(prefix, ...args)`: the prefix, a colon, then the arguments joined by colons. */
  function GenerateCacheKey(prefix: string, args: seq<string>): (key: string)
    ensures StartsWith(key, prefix + ":")
  {
    var key := prefix + ":" + Join(args, ":");
    assert key[..|prefix + ":"|] == prefix + ":";
    key
  }

  /** With no arguments the key is the prefix and a trailing colon. */
  lemma NoArgumentsTrailingColon(prefix: string)
    ensures GenerateCacheKey(prefix, []) == prefix + ":"
  {
  }

  /**
   * When no argument holds a colon, the key splits back into the prefix's
   * pieces followed by exactly the arguments.
   */
  lemma KeySplitsIntoArguments(prefix: string, args: seq<string>)
    requires |args| >= 1 && forall i :: 0 <= i < |args| ==> ':' !in args[i]
    ensures Split(GenerateCacheKey(prefix, args), ':') == Split(prefix, ':') + args
  {
    assert GenerateCacheKey(prefix, args) == prefix + [':'] + Join(args, [':']);
    SplitConcat(prefix, Join(args, [':']), ':');
    SplitJoin(args, ':');
  }

  /** So under one prefix, colon-free argument lists that differ give different keys. */
  lemma KeysSeparateArguments(prefix: string, args1: seq<string>, args2: seq<string>)
    requires |args1| >= 1 && forall i :: 0 <= i < |args1| ==> ':' !in args1[i]
    requires |args2| >= 1 && forall i :: 0 <= i < |args2| ==> ':' !in args2[i]
    ensures GenerateCacheKey(prefix, args1) == GenerateCacheKey(prefix, args2) <==> args1 == args2
  {
    KeySplitsIntoArguments(prefix, args1);
    KeySplitsIntoArguments(prefix, args2);
    var p := Split(prefix, ':');
    if GenerateCacheKey(prefix, args1) == GenerateCacheKey(prefix, args2) {
      assert args1 == (p + args1)[|p|..];
      assert args2 == (p + args2)[|p|..];
    }
  }
}

/**
 * The periodic cache sweep of components/performance-optimizer.tsx: among the
 * `ai_response_*` and `upload_*` keys of local storage, it drops the entries
 * whose `timestamp` is more than an hour old.
 */
module PerformanceOptimizer {
  import opened Common
  import opened Json
  import opened Strings
  import opened LocalStorage
  import FileHandler

  const ONE_HOUR_MS := 60 * 60 * 1000

  /** The keys the sweep looks at. */
  predicate IsCacheKey(key: string)
  {
    StartsWith(key, "ai_response_") || StartsWith(key, "upload_")
  }

  /** What the sweep decides for an entry it reads: parsed, with a truthy timestamp over an hour old. */
  predicate Outdated(parsed: Option<Json>, nowMs: int)
  {
    && parsed.Some?
    && var timestamp := Field(parsed.value, "timestamp");
    && Present(timestamp)
    && var t := ToNumber(timestamp);
    && t.Some? && nowMs - t.value > ONE_HOUR_MS
  }

  /** An item the sweep removes. */
  predicate Expired(item: Item, nowMs: int)
  {
    IsCacheKey(item.key) && Outdated(ParseOr(Some(item.text), JObj(map[])), nowMs)
  }

  function ExpiredAt(nowMs: int): Item -> bool
  {
    item => Expired(item, nowMs)
  }

  /**
   * `clearOldCache`: the keys are taken once, up front, and each cache key is
   * read and perhaps removed in turn; the filter over the keys is folded into
   * the walk.
   */
  method ClearOldCache(storage: Storage, nowMs: int)
    requires storage.Valid()
    modifies storage`items
    ensures storage.Valid()
    ensures storage.items == RemoveWhere(old(storage.items), ExpiredAt(nowMs))
  {
    ghost var items := storage.items;
    var keys := KeysOf(storage.items);
    var j := 0;
    while j < |keys|
      invariant storage.Valid()
      invariant 0 <= j <= |keys|
      invariant storage.items == RemoveWhere(items[..j], ExpiredAt(nowMs)) + items[j..]
    {
      SweepLookup(items, j, ExpiredAt(nowMs), storage.items);
      var key := keys[j];
      if IsCacheKey(key) && Outdated(ParseOr(storage.GetItem(key), JObj(map[])), nowMs) {
        SweepDrop(items, j, ExpiredAt(nowMs), storage.items);
        storage.RemoveItem(key);
      } else {
        SweepKeep(items, j, ExpiredAt(nowMs), storage.items);
      }
      j := j + 1;
    }
    assert items[..j] == items;
  }

  /** The sweep keeps exactly the items it does not find expired, in their order. */
  lemma ClearKeepsTheRest(items: seq<Item>, nowMs: int, x: Item)
    ensures x in RemoveWhere(items, ExpiredAt(nowMs)) <==> x in items && !Expired(x, nowMs)
    ensures x in items && !IsCacheKey(x.key) ==> x in RemoveWhere(items, ExpiredAt(nowMs))
    ensures x in items && x.text == Garbage ==> x in RemoveWhere(items, ExpiredAt(nowMs))
  {
    RemoveWhereMembers(items, ExpiredAt(nowMs), x);
  }

  /** An entry is removed iff its timestamp is truthy and more than an hour behind. */
  lemma OutdatedIff(key: string, fields: map<string, Json>, nowMs: int)
    requires IsCacheKey(key)
    ensures Expired(Item(key, Holds(JObj(fields))), nowMs) <==>
      "timestamp" in fields && Truthy(fields["timestamp"]) && ToNumber(Some(fields["timestamp"])).Some? &&
      nowMs - ToNumber(Some(fields["timestamp"])).value > ONE_HOUR_MS
  {
  }

  /** Upload metadata records `startTime` and no `timestamp`, so the sweep never removes it. */
  lemma UploadMetadataSurvives(m: FileHandler.UploadMetadata, nowMs: int)
    ensures !Expired(Item(FileHandler.MetadataKey(m.fileName), Holds(FileHandler.MetadataJson(m))), nowMs)
  {
  }
}

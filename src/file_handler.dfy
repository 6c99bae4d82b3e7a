/**
 * Upload bookkeeping in local storage (utils/file-handler.ts): each upload
 * records its metadata under `upload_<fileName>` while it runs and when it
 * ends; interrupted uploads are found by scanning the keys; old metadata is
 * swept away.
 */
module FileHandler {
  import opened Common
  import opened Json
  import opened Strings
  import opened LocalStorage

  /** Files up to one MiB go up in one request. */
  const CHUNK_SIZE := 1024 * 1024
  const DAY_MS := 24 * 60 * 60 * 1000
  const UPLOAD_PREFIX := "upload_"

  datatype File = File(name: string, size: int, mimeType: string)

  datatype UploadStatus = InProgress | Completed | Failed

  function StatusValue(s: UploadStatus): string
  {
    match s
    case InProgress => "in_progress"
    case Completed => "completed"
    case Failed => "failed"
  }

  datatype UploadMetadata = UploadMetadata(
    fileName: string,
    fileSize: int,
    fileType: string,
    userId: string,
    startTime: int,
    status: UploadStatus,
    endTime: Option<int>,
    error: Option<string>)

  /** The metadata as stored: `JSON.parse(JSON.stringify(m))`. */
  function MetadataJson(m: UploadMetadata): (j: Json)
    ensures Field(j, "userId") == Some(JStr(m.userId))
    ensures Field(j, "status") == Some(JStr(StatusValue(m.status)))
    ensures Field(j, "startTime") == Some(JNum(m.startTime))
    ensures Field(j, "timestamp").None?
  {
    JObj(map["fileName" := JStr(m.fileName), "fileSize" := JNum(m.fileSize), "fileType" := JStr(m.fileType),
             "userId" := JStr(m.userId), "startTime" := JNum(m.startTime), "status" := JStr(StatusValue(m.status))]
         + (if m.endTime.Some? then map["endTime" := JNum(m.endTime.value)] else map[])
         + (if m.error.Some? then map["error" := JStr(m.error.value)] else map[]))
  }

  /** `${userId}/${Date.now()}_${file.name}` */
  function UploadName(userId: string, nowMs: int, file: File): string
  {
    userId + "/" + Decimal(nowMs) + "_" + file.name
  }

  function MetadataKey(fileName: string): string { UPLOAD_PREFIX + fileName }

  /** The metadata recorded when an upload starts. */
  function Started(file: File, userId: string, nowMs: int): (m: UploadMetadata)
    ensures m.status == InProgress && m.userId == userId && m.startTime == nowMs
    ensures m.fileName == UploadName(userId, nowMs, file)
  {
    UploadMetadata(UploadName(userId, nowMs, file), file.size, file.mimeType, userId, nowMs, InProgress, None, None)
  }

  /**
   * The metadata recorded when an upload ends: `completed` with an end time,
   * or `failed` with the storage service's error message.
   */
  function Finished(file: File, userId: string, nowMs: int, uploadError: Option<string>): (m: UploadMetadata)
    ensures m.status == (if uploadError.None? then Completed else Failed)
    ensures m.error == uploadError
    ensures m.status == Completed <==> m.endTime.Some?
    ensures m.(status := InProgress, endTime := None, error := None) == Started(file, userId, nowMs)
  {
    var m := Started(file, userId, nowMs);
    if uploadError.None? then m.(status := Completed, endTime := Some(nowMs))
    else m.(status := Failed, error := uploadError)
  }

  datatype Upload = Upload(url: string, metadata: UploadMetadata)

  /** The message of the exception a refused `setItem` throws; its wording is the browser's. */
  const WRITE_REFUSED := "QuotaExceededError"

  /**
   * `uploadFileWithProgress`. The storage service's answer is a parameter:
   * `uploadError` is its error message, `publicUrl` the address it gives the
   * file. `progress` lists the values passed to `onProgress` after the
   * upload: `[100]` on the chunked path, nothing on the direct one.
   */
  method UploadFileWithProgress(
    storage: Storage, file: File, userId: string, nowMs: int, uploadError: Option<string>, publicUrl: string)
    returns (r: Result<Upload>, progress: seq<int>)
    requires storage.Valid()
    modifies storage`items
    ensures storage.Valid()
    ensures storage.full ==> r == Err(WRITE_REFUSED) && progress == [] && storage.items == old(storage.items)
    ensures !storage.full ==>
      var name := UploadName(userId, nowMs, file);
      && storage.items == Put(old(storage.items), MetadataKey(name), Holds(MetadataJson(Finished(file, userId, nowMs, uploadError))))
      && (r.Ok? <==> uploadError.None?)
      && (r.Ok? ==> r.value == Upload(publicUrl, Finished(file, userId, nowMs, None)))
      && (r.Err? ==> r.error == uploadError.value)
      && progress == if file.size <= CHUNK_SIZE then [] else [100]
  {
    var fileName := UploadName(userId, nowMs, file);
    var uploadMetadata := Started(file, userId, nowMs);
    var key := MetadataKey(fileName);
    var ok := storage.SetItem(key, Holds(MetadataJson(uploadMetadata)));
    if !ok {
      return Err(WRITE_REFUSED), [];
    }
    progress := if file.size <= CHUNK_SIZE then [] else [100];
    PutPut(old(storage.items), key, Holds(MetadataJson(uploadMetadata)),
      Holds(MetadataJson(Finished(file, userId, nowMs, uploadError))));
    if uploadError.Some? {
      uploadMetadata := uploadMetadata.(status := Failed, error := uploadError);
      ok := storage.SetItem(key, Holds(MetadataJson(uploadMetadata)));
      return Err(uploadError.value), progress;
    }
    uploadMetadata := uploadMetadata.(status := Completed, endTime := Some(nowMs));
    ok := storage.SetItem(key, Holds(MetadataJson(uploadMetadata)));
    r := Ok(Upload(publicUrl, uploadMetadata));
  }

  /** An `upload_*` item whose metadata names `userId` and is still `in_progress`. */
  predicate IsInterrupted(item: Item, userId: string)
  {
    && StartsWith(item.key, UPLOAD_PREFIX)
    && var metadata := ParseOr(Some(item.text), JObj(map[]));
    && metadata.Some?
    && Field(metadata.value, "userId") == Some(JStr(userId))
    && Field(metadata.value, "status") == Some(JStr("in_progress"))
  }

  /** The metadata of the interrupted uploads of `userId`, in storage order. */
  function Interrupted(items: seq<Item>, userId: string): (r: seq<Json>)
    ensures |r| <= |items|
  {
    if |items| == 0 then []
    else
      var last := items[|items| - 1];
      Interrupted(items[..|items| - 1], userId) + (if IsInterrupted(last, userId) then [last.text.value] else [])
  }

  /** A metadata value is reported iff some interrupted item of the user holds it. */
  lemma {:induction false} InterruptedMembers(items: seq<Item>, userId: string, m: Json)
    ensures m in Interrupted(items, userId) <==>
      exists i :: 0 <= i < |items| && IsInterrupted(items[i], userId) && items[i].text == Holds(m)
  {
    if |items| > 0 {
      var init := items[..|items| - 1];
      InterruptedMembers(init, userId, m);
      if exists i :: 0 <= i < |init| && IsInterrupted(init[i], userId) && init[i].text == Holds(m) {
        var i :| 0 <= i < |init| && IsInterrupted(init[i], userId) && init[i].text == Holds(m);
        assert items[i] == init[i];
      }
      if exists i :: 0 <= i < |items| && IsInterrupted(items[i], userId) && items[i].text == Holds(m) {
        var i :| 0 <= i < |items| && IsInterrupted(items[i], userId) && items[i].text == Holds(m);
        if i < |init| {
          assert init[i] == items[i];
        }
      }
    }
  }

  /** `getInterruptedUploads`: a walk over the keys by index, collecting matches. */
  method GetInterruptedUploads(storage: Storage, userId: string) returns (interrupted: seq<Json>)
    ensures interrupted == Interrupted(storage.items, userId)
  {
    interrupted := [];
    var i := 0;
    while i < |storage.items|
      invariant 0 <= i <= |storage.items|
      invariant interrupted == Interrupted(storage.items[..i], userId)
    {
      var item := storage.items[i];
      if StartsWith(item.key, UPLOAD_PREFIX) {
        var metadata := ParseOr(Some(item.text), JObj(map[]));
        if metadata.Some? && Field(metadata.value, "userId") == Some(JStr(userId))
          && Field(metadata.value, "status") == Some(JStr("in_progress")) {
          interrupted := interrupted + [metadata.value];
        }
      }
      assert storage.items[..i + 1][..i] == storage.items[..i];
      i := i + 1;
    }
    assert storage.items[..i] == storage.items;
  }

  /** An upload's own metadata is reported while it runs and no longer once it has ended. */
  lemma InterruptedWhileRunning(m: UploadMetadata, userId: string)
    ensures IsInterrupted(Item(MetadataKey(m.fileName), Holds(MetadataJson(m))), userId) <==>
      m.userId == userId && m.status == InProgress
  {
    var key := MetadataKey(m.fileName);
    assert key[..|UPLOAD_PREFIX|] == UPLOAD_PREFIX;
    assert StatusValue(Completed) != "in_progress" && StatusValue(Failed) != "in_progress";
  }

  /** `now - olderThanDays * 24 * 60 * 60 * 1000` */
  function Cutoff(nowMs: int, olderThanDays: int): int
  {
    nowMs - olderThanDays * DAY_MS
  }

  /** An `upload_*` item whose metadata parses and has a `startTime` before the cutoff. */
  predicate Stale(item: Item, cutoff: int)
  {
    && StartsWith(item.key, UPLOAD_PREFIX)
    && var metadata := ParseOr(Some(item.text), JObj(map[]));
    && metadata.Some?
    && var start := ToNumber(Field(metadata.value, "startTime"));
    && start.Some? && start.value < cutoff
  }

  /**
   * The sweep as written: walking by index and removing in place, so the
   * item that moves into a removed item's place is never looked at.
   */
  function SweepAsWritten(items: seq<Item>, i: nat, cutoff: int): seq<Item>
    decreases |items| - i
  {
    if i >= |items| then items
    else if Stale(items[i], cutoff) then SweepAsWritten(items[..i] + items[i + 1..], i + 1, cutoff)
    else SweepAsWritten(items, i + 1, cutoff)
  }

  /** `cleanupOldUploads` as it is written. */
  method CleanupOldUploadsAsWritten(storage: Storage, nowMs: int, olderThanDays: int := 30)
    requires storage.Valid()
    modifies storage`items
    ensures storage.Valid()
    ensures storage.items == SweepAsWritten(old(storage.items), 0, Cutoff(nowMs, olderThanDays))
  {
    var cutoff := nowMs - olderThanDays * 24 * 60 * 60 * 1000;
    var i := 0;
    while i < |storage.items|
      invariant storage.Valid()
      invariant SweepAsWritten(storage.items, i, cutoff) == SweepAsWritten(old(storage.items), 0, cutoff)
      decreases |storage.items| - i
    {
      var key := storage.items[i].key;
      if Stale(storage.items[i], cutoff) {
        RemoveAt(storage.items, i);
        storage.RemoveItem(key);
      }
      i := i + 1;
    }
  }

  /** Two stale uploads side by side: the written sweep removes the first and keeps the second. */
  lemma SweepSkipsNeighbour()
    ensures
      var old1 := Item("upload_a", Holds(JObj(map["startTime" := JNum(0)])));
      var old2 := Item("upload_b", Holds(JObj(map["startTime" := JNum(0)])));
      && Stale(old2, 1)
      && SweepAsWritten([old1, old2], 0, 1) == [old2]
  {
    var old1 := Item("upload_a", Holds(JObj(map["startTime" := JNum(0)])));
    var old2 := Item("upload_b", Holds(JObj(map["startTime" := JNum(0)])));
    assert old1.key[..|UPLOAD_PREFIX|] == UPLOAD_PREFIX;
    assert old2.key[..|UPLOAD_PREFIX|] == UPLOAD_PREFIX;
    assert Stale(old1, 1) && Stale(old2, 1);
    assert [old1, old2][..0] + [old1, old2][1..] == [old2];
  }

  /** The items the cleanup removes: stale upload metadata. */
  function StaleAt(cutoff: int): Item -> bool
  {
    item => Stale(item, cutoff)
  }

  /**
   * `cleanupOldUploads` with the index moved on only past an item that stays,
   * so every item is looked at: exactly the stale upload metadata goes.
   */
  method CleanupOldUploads(storage: Storage, nowMs: int, olderThanDays: int := 30)
    requires storage.Valid()
    modifies storage`items
    ensures storage.Valid()
    ensures storage.items == RemoveWhere(old(storage.items), StaleAt(Cutoff(nowMs, olderThanDays)))
  {
    var cutoff := Cutoff(nowMs, olderThanDays);
    var i := 0;
    while i < |storage.items|
      invariant storage.Valid()
      invariant 0 <= i <= |storage.items|
      invariant storage.items[..i] == RemoveWhere(storage.items[..i], StaleAt(cutoff))
      invariant RemoveWhere(storage.items, StaleAt(cutoff)) == RemoveWhere(old(storage.items), StaleAt(cutoff))
      decreases |storage.items| - i
    {
      var item := storage.items[i];
      if Stale(item, cutoff) {
        RemoveAt(storage.items, i);
        DropSelected(storage.items, i, StaleAt(cutoff));
        storage.RemoveItem(item.key);
      } else {
        KeepUnselected(storage.items, i, StaleAt(cutoff));
        i := i + 1;
      }
    }
    assert storage.items[..i] == storage.items;
  }

  /** Stale upload metadata is all that goes: other keys, newer uploads and unreadable items stay. */
  lemma CleanupRemovesOnlyStale(items: seq<Item>, cutoff: int, x: Item)
    ensures x in RemoveWhere(items, StaleAt(cutoff)) <==> x in items && !Stale(x, cutoff)
    ensures x in items && !StartsWith(x.key, UPLOAD_PREFIX) ==> x in RemoveWhere(items, StaleAt(cutoff))
    ensures x in items && x.text == Garbage ==> x in RemoveWhere(items, StaleAt(cutoff))
  {
    RemoveWhereMembers(items, StaleAt(cutoff), x);
  }

  /** An upload started at the cutoff or later survives the cleanup. */
  lemma RecentUploadSurvives(m: UploadMetadata, nowMs: int, olderThanDays: int)
    requires m.startTime >= Cutoff(nowMs, olderThanDays)
    ensures !Stale(Item(MetadataKey(m.fileName), Holds(MetadataJson(m))), Cutoff(nowMs, olderThanDays))
  {
  }
}
